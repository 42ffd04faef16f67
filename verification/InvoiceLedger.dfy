/** Invoices and their payments: the DRAFT, SENT, PARTIAL, PAID, OVERDUE, CANCELLED machine. Each
    handler, and each row of the worker's overdue sweep with its check, runs as one step. */
module InvoiceLedger {
  import opened Options
  import opened Rounding
  import opened Gst

  datatype Status = DRAFT | SENT | PARTIAL | PAID | OVERDUE | CANCELLED

  /** Amounts in paise; a due date is a point in time. */
  datatype Invoice = Invoice(
    tenant: string, items: seq<Taxed>, totals: Totals, invoiceDate: int, dueDate: Option<int>, paidAmount: int,
        status: Status)

  datatype Payment = Payment(invoice: nat, amount: int)

  /** Ids below `nextId` are taken. */
  datatype State = State(invoices: map<nat, Invoice>, nextId: nat, payments: seq<Payment>)

  /** What an edit asks for: fields that are absent stay, and so do the items if none are given. */
  datatype Edit = Edit(invoiceDate: Option<int>, dueDate: Option<int>, lines: seq<Line>, interState: bool)

  datatype Event =
    | Create(known: bool, tenant: string, lines: seq<Line>, interState: bool, invoiceDate: int, dueDate: Option<int>)
    | Update(tenant: string, id: nat, edit: Edit)
    | Send(tenant: string, id: nat)
    | AddPayment(tenant: string, id: nat, amount: real)
    | Remove(tenant: string, id: nat)
    | Sweep(now: int, id: nat)

  datatype Outcome = Done | NotFound | Forbidden | BadRequest

  const START := State(map[], 0, [])

  /** A payment is validated to be at least one rupee. */
  predicate Valid(e: Event) {
    e.AddPayment? ==> e.amount >= 100.0
  }

  predicate Mine(s: State, tenant: string, id: nat) {
    id in s.invoices && s.invoices[id].tenant == tenant
  }

  predicate DueForSweep(i: Invoice, now: int) {
    (i.status == SENT || i.status == PARTIAL) && i.dueDate.Some? && i.dueDate.value < now
  }

  function Answer(s: State, e: Event): Outcome {
    match e
    case Create(known, _, _, _, _, _) => if known then Done else NotFound
    case Update(tenant, id, _) =>
      if !Mine(s, tenant, id) then NotFound else if s.invoices[id].status != DRAFT then Forbidden else Done
    case Send(tenant, id) =>
      if !Mine(s, tenant, id) then NotFound else if s.invoices[id].status != DRAFT then Forbidden else Done
    case AddPayment(tenant, id, amount) =>
      if !Mine(s, tenant, id) then NotFound
      else if s.invoices[id].status == PAID then Forbidden
      else if s.invoices[id].paidAmount as real + amount > s.invoices[id].totals.total as real then BadRequest
      else Done
    case Remove(tenant, id) =>
      if !Mine(s, tenant, id) then NotFound else if s.invoices[id].status != DRAFT then Forbidden else Done
    case Sweep(now, id) => if id in s.invoices && DueForSweep(s.invoices[id], now) then Done else NotFound
  }

  function Edited(i: Invoice, edit: Edit): Invoice {
    var j := i.(invoiceDate := if edit.invoiceDate.Some? then edit.invoiceDate.value else i.invoiceDate,
                dueDate := if edit.dueDate.Some? then edit.dueDate else i.dueDate);
    if edit.lines == [] then j
    else j.(items := ItemsGst(edit.lines, edit.interState), totals := TotalsOf(ItemsGst(edit.lines, edit.interState)))
  }

  /** The status is decided on the exact amount; the database keeps it to the paisa. */
  function Paid(i: Invoice, amount: real): Invoice {
    var paid := i.paidAmount as real + amount;
    i.(paidAmount := HalfUp(paid),
       status := if paid == i.totals.total as real then PAID
                 else if paid > 0.0 then PARTIAL
                 else if i.status == CANCELLED then DRAFT else i.status)
  }

  function After(s: State, e: Event): State {
    if Answer(s, e) != Done then s
    else match e
      case Create(_, tenant, lines, interState, date, due) =>
        var items := ItemsGst(lines, interState);
        s.(invoices := s.invoices[s.nextId := Invoice(tenant, items, TotalsOf(items), date, due, 0, DRAFT)],
            nextId := s.nextId + 1)
      case Update(_, id, edit) => s.(invoices := s.invoices[id := Edited(s.invoices[id], edit)])
      case Send(_, id) => s.(invoices := s.invoices[id := s.invoices[id].(status := SENT)])
      case AddPayment(_, id, amount) =>
        s.(invoices := s.invoices[id := Paid(s.invoices[id], amount)],
            payments := s.payments + [Payment(id, HalfUp(amount))])
      case Remove(_, id) => s.(invoices := s.invoices[id := s.invoices[id].(status := CANCELLED)])
      case Sweep(_, id) => s.(invoices := s.invoices[id := s.invoices[id].(status := OVERDUE)])
  }

  class InvoiceService {
    var invoices: map<nat, Invoice>
    var nextId: nat
    var payments: seq<Payment>

    ghost function Now(): State
      reads this
    {
      State(invoices, nextId, payments)
    }

    constructor ()
      ensures Now() == START
    {
      invoices, nextId, payments := map[], 0, [];
    }

    method ProcessItems(lines: seq<Line>, interState: bool) returns (items: seq<Taxed>)
      ensures items == ItemsGst(lines, interState)
    {
      items := [];
      for n := 0 to |lines|
        invariant items == ItemsGst(lines[..n], interState)
      {
        items := items + [ItemGst(lines[n], interState)];
      }
      assert lines[..|lines|] == lines;
    }

    method Create(known: bool, tenant: string, lines: seq<Line>, interState: bool, date: int,
            due: Option<int>) returns (outcome: Outcome, id: nat)
      modifies this
      ensures outcome == Answer(old(Now()), Event.Create(known, tenant, lines, interState, date, due))
      ensures Now() == After(old(Now()), Event.Create(known, tenant, lines, interState, date, due))
      ensures id == old(nextId)
    {
      id := nextId;
      if !known {
        return NotFound, id;
      }
      var items := ProcessItems(lines, interState);
      var totals := SummarizeInvoice(items);
      invoices := invoices[id := Invoice(tenant, items, totals, date, due, 0, DRAFT)];
      nextId := nextId + 1;
      outcome := Done;
    }

    method Update(tenant: string, id: nat, edit: Edit) returns (outcome: Outcome)
      modifies this
      ensures outcome == Answer(old(Now()), Event.Update(tenant, id, edit))
      ensures Now() == After(old(Now()), Event.Update(tenant, id, edit))
    {
      if !(id in invoices && invoices[id].tenant == tenant) {
        return NotFound;
      }
      var i := invoices[id];
      if i.status != DRAFT {
        return Forbidden;
      }
      if edit.invoiceDate.Some? {
        i := i.(invoiceDate := edit.invoiceDate.value);
      }
      if edit.dueDate.Some? {
        i := i.(dueDate := edit.dueDate);
      }
      if |edit.lines| > 0 {
        var items := ProcessItems(edit.lines, edit.interState);
        var totals := SummarizeInvoice(items);
        i := i.(items := items, totals := totals);
      }
      invoices := invoices[id := i];
      outcome := Done;
    }

    method Send(tenant: string, id: nat) returns (outcome: Outcome)
      modifies this
      ensures outcome == Answer(old(Now()), Event.Send(tenant, id))
      ensures Now() == After(old(Now()), Event.Send(tenant, id))
    {
      if !(id in invoices && invoices[id].tenant == tenant) {
        return NotFound;
      }
      if invoices[id].status != DRAFT {
        return Forbidden;
      }
      invoices := invoices[id := invoices[id].(status := SENT)];
      outcome := Done;
    }

    method AddPayment(tenant: string, id: nat, amount: real) returns (outcome: Outcome)
      modifies this
      ensures outcome == Answer(old(Now()), Event.AddPayment(tenant, id, amount))
      ensures Now() == After(old(Now()), Event.AddPayment(tenant, id, amount))
    {
      if !(id in invoices && invoices[id].tenant == tenant) {
        return NotFound;
      }
      var i := invoices[id];
      if i.status == PAID {
        return Forbidden;
      }
      var newPaidAmount := i.paidAmount as real + amount;
      var totalAmount := i.totals.total as real;
      if newPaidAmount > totalAmount {
        return BadRequest;
      }
      var newStatus := i.status;
      if newStatus == CANCELLED {
        newStatus := DRAFT;
      }
      if newPaidAmount == totalAmount {
        newStatus := PAID;
      } else if newPaidAmount > 0.0 {
        newStatus := PARTIAL;
      }
      payments := payments + [Payment(id, HalfUp(amount))];
      invoices := invoices[id := i.(paidAmount := HalfUp(newPaidAmount), status := newStatus)];
      outcome := Done;
    }

    method Remove(tenant: string, id: nat) returns (outcome: Outcome)
      modifies this
      ensures outcome == Answer(old(Now()), Event.Remove(tenant, id))
      ensures Now() == After(old(Now()), Event.Remove(tenant, id))
    {
      if !(id in invoices && invoices[id].tenant == tenant) {
        return NotFound;
      }
      if invoices[id].status != DRAFT {
        return Forbidden;
      }
      invoices := invoices[id := invoices[id].(status := CANCELLED)];
      outcome := Done;
    }
  }

  // ----- What every run keeps -----

  /** All payments made to an invoice. */
  function PaidTo(payments: seq<Payment>, id: nat): int {
    if payments == [] then 0
    else
      var before, last := PaidTo(payments[..|payments| - 1], id), payments[|payments| - 1];
      if last.invoice == id then before + last.amount else before
  }

  function PaymentsTo(payments: seq<Payment>, id: nat): nat {
    if payments == [] then 0
    else PaymentsTo(payments[..|payments| - 1], id) + if payments[|payments| - 1].invoice == id then 1 else 0
  }

  /** The books of one invoice. The paid amount is the sum of its payments, each of a rupee or
      more; it never exceeds the total; drafts, sent and cancelled invoices have nothing paid,
      partial ones something, paid ones everything. */
  ghost predicate Balanced(i: Invoice, id: nat, payments: seq<Payment>) {
    && i.totals == TotalsOf(i.items)
    && i.paidAmount == PaidTo(payments, id)
    && 100 * PaymentsTo(payments, id) <= i.paidAmount
    && (i.paidAmount == 0 || i.paidAmount <= i.totals.total)
    && (i.status in {DRAFT, SENT, CANCELLED} ==> i.paidAmount == 0)
    && (i.status == PARTIAL ==> 0 < i.paidAmount <= i.totals.total)
    && (i.status == PAID ==> 0 < i.paidAmount == i.totals.total)
  }

  ghost predicate Inv(s: State) {
    && (forall id :: id in s.invoices ==> id < s.nextId && Balanced(s.invoices[id], id, s.payments))
    && (forall n :: 0 <= n < |s.payments| ==> s.payments[n].invoice < s.nextId)
  }

  lemma {:induction false} OnePaymentMore(payments: seq<Payment>, p: Payment, id: nat)
    ensures PaidTo(payments + [p], id) == PaidTo(payments, id) + if p.invoice == id then p.amount else 0
    ensures PaymentsTo(payments + [p], id) == PaymentsTo(payments, id) + if p.invoice == id then 1 else 0
  {
    assert (payments + [p])[..|payments|] == payments;
  }

  lemma {:induction false} NothingPaidYet(payments: seq<Payment>, id: nat)
    requires forall n :: 0 <= n < |payments| ==> payments[n].invoice < id
    ensures PaidTo(payments, id) == 0 && PaymentsTo(payments, id) == 0
    decreases |payments|
  {
    if payments != [] {
      NothingPaidYet(payments[..|payments| - 1], id);
    } else {
    }
  }

  /** A payment taken to the paisa on top of whole paise. */
  lemma {:induction false} PaidToThePaisa(paid: int, amount: real, total: int)
    requires paid >= 0 && amount >= 100.0 && paid as real + amount <= total as real
    ensures HalfUp(paid as real + amount) == paid + HalfUp(amount)
    ensures HalfUp(amount) >= 100 && paid + HalfUp(amount) <= total
  {
    HalfUpShift(paid, amount);
    HalfUpMonotone(100.0, amount);
    HalfUpWhole(100);
    HalfUpMonotone(paid as real + amount, total as real);
    HalfUpWhole(total);
  }

  lemma {:induction false} PaymentBalances(i: Invoice, id: nat, payments: seq<Payment>, amount: real)
    requires Balanced(i, id, payments) && i.status != PAID
    requires amount >= 100.0 && i.paidAmount as real + amount <= i.totals.total as real
    ensures Balanced(Paid(i, amount), id, payments + [Payment(id, HalfUp(amount))])
    ensures Paid(i, amount).status == if i.paidAmount as real + amount == i.totals.total as real then PAID else PARTIAL
  {
    OnePaymentMore(payments, Payment(id, HalfUp(amount)), id);
    PaidToThePaisa(i.paidAmount, amount, i.totals.total);
    HalfUpWhole(i.totals.total);
  }

  lemma {:induction false} StepKeepsOne(s: State, e: Event, id: nat)
    requires Inv(s) && Valid(e) && id in After(s, e).invoices
    ensures id < After(s, e).nextId && Balanced(After(s, e).invoices[id], id, After(s, e).payments)
  {
    if Answer(s, e) == Done {
      if e.AddPayment? {
        if id == e.id {
          PaymentBalances(s.invoices[id], id, s.payments, e.amount);
        } else {
          OnePaymentMore(s.payments, Payment(e.id, HalfUp(e.amount)), id);
        }
      } else if e.Create? && id == s.nextId {
        NothingPaidYet(s.payments, id);
      }
    }
  }

  lemma {:induction false} StepKeeps(s: State, e: Event)
    requires Inv(s) && Valid(e)
    ensures Inv(After(s, e))
  {
    forall id | id in After(s, e).invoices
      ensures id < After(s, e).nextId && Balanced(After(s, e).invoices[id], id, After(s, e).payments)
    {
      StepKeepsOne(s, e, id);
    }
  }

  ghost predicate IsRun(states: seq<State>, events: seq<Event>) {
    && |states| == |events| + 1
    && forall k :: 0 <= k < |events| ==> Valid(events[k]) && states[k + 1] == After(states[k], events[k])
  }

  /** Every run from an empty ledger keeps the books of every invoice balanced. */
  lemma {:induction false} RunKeepsBooks(states: seq<State>, events: seq<Event>, k: nat)
    requires IsRun(states, events) && states[0] == START && k < |states|
    ensures Inv(states[k])
  {
    if k > 0 {
      RunKeepsBooks(states, events, k - 1);
      StepKeeps(states[k - 1], events[k - 1]);
    } else {
    }
  }

  /** The number of accepted payments never exceeds the total in rupees. */
  lemma {:induction false} PaymentsAtMostTotal(states: seq<State>, events: seq<Event>, k: nat, id: nat)
    requires IsRun(states, events) && states[0] == START && k < |states| && id in states[k].invoices
    ensures var i, n := states[k].invoices[id], PaymentsTo(states[k].payments, id);
            n == 0 || 100 * n <= i.totals.total
  {
    RunKeepsBooks(states, events, k);
    assert Balanced(states[k].invoices[id], id, states[k].payments);
  }

  // ----- What is accepted, and what it does -----

  /** Whose invoice it is, and in which status. */
  predicate IsIn(s: State, tenant: string, id: nat, status: Status) {
    id in s.invoices && s.invoices[id].tenant == tenant && s.invoices[id].status == status
  }

  /** A tenant edits, sends and cancels its own drafts and nothing else; the sweep moves whatever is
      sent or partly paid and past its due date. */
  lemma {:induction false} AcceptedExactly(s: State, e: Event)
    ensures e.Create? ==> (Answer(s, e) == Done <==> e.known)
    ensures e.Update? || e.Send? || e.Remove? ==> (Answer(s, e) == Done <==> IsIn(s, e.tenant, e.id, DRAFT))
    ensures e.Sweep? ==>
              (Answer(s, e) == Done <==>
                 e.id in s.invoices && s.invoices[e.id].status in {SENT, PARTIAL}
                 && s.invoices[e.id].dueDate.Some? && s.invoices[e.id].dueDate.value < e.now)
  {}

  /** In every run a payment of a rupee or more on the tenant's own invoice is accepted if and only if
      the invoice is not PAID and what was paid so far, with this payment, is at most the total. */
  lemma {:induction false} PaymentAccepted(states: seq<State>, events: seq<Event>, k: nat, tenant: string, id: nat,
          amount: real)
    requires IsRun(states, events) && states[0] == START && k < |states| && amount >= 100.0
    ensures var s := states[k];
            Answer(s, AddPayment(tenant, id, amount)) ==
            if !(id in s.invoices && s.invoices[id].tenant == tenant) then NotFound
            else if s.invoices[id].status == PAID then Forbidden
            else if PaidTo(s.payments, id) as real + amount <= s.invoices[id].totals.total as real then Done
            else BadRequest
  {
    RunKeepsBooks(states, events, k);
    if id in states[k].invoices {
      assert Balanced(states[k].invoices[id], id, states[k].payments);
    }
  }

  /** On a reachable invoice that is not PAID and owes a rupee or more, paying the whole balance is
      accepted and makes it PAID in full. */
  lemma {:induction false} BalanceSettles(states: seq<State>, events: seq<Event>, k: nat, id: nat, owed: int)
    requires IsRun(states, events) && states[0] == START && k < |states| && id in states[k].invoices
    requires states[k].invoices[id].status != PAID && owed >= 100
    requires owed == states[k].invoices[id].totals.total - PaidTo(states[k].payments, id)
    ensures var s := states[k];
            var e := AddPayment(s.invoices[id].tenant, id, owed as real);
            && Answer(s, e) == Done
            && After(s, e).invoices[id] == s.invoices[id].(paidAmount := s.invoices[id].totals.total, status := PAID)
  {
    var i := states[k].invoices[id];
    RunKeepsBooks(states, events, k);
    assert Balanced(i, id, states[k].payments);
    assert i.paidAmount as real + owed as real == i.totals.total as real;
    HalfUpWhole(i.totals.total);
  }

  /** A payment that is accepted is kept to the paisa, and leaves the invoice PAID or PARTIAL. */
  lemma {:induction false} PaymentIsKept(s: State, e: Event)
    requires Inv(s) && Valid(e) && e.AddPayment? && Answer(s, e) == Done
    ensures var i, t := s.invoices[e.id], After(s, e);
            && t.payments == s.payments + [Payment(e.id, HalfUp(e.amount))] && t.nextId == s.nextId
            && t.invoices == s.invoices[e.id := i.(
                 paidAmount := i.paidAmount + HalfUp(e.amount),
                 status := if i.paidAmount as real + e.amount == i.totals.total as real then PAID else PARTIAL)]
  {
    assert Balanced(s.invoices[e.id], e.id, s.payments);
    PaidToThePaisa(s.invoices[e.id].paidAmount, e.amount, s.invoices[e.id].totals.total);
  }

  /** The other steps make no payment; sending, cancelling and the sweep change one status. */
  lemma {:induction false} StatusIsSet(s: State, e: Event)
    requires Answer(s, e) == Done && (e.Send? || e.Remove? || e.Sweep?)
    ensures After(s, e) ==
            s.(invoices := s.invoices[e.id := s.invoices[e.id].(
                 status := if e.Send? then SENT else if e.Remove? then CANCELLED else OVERDUE)])
  {}

  /** The lines, taxed one by one. */
  ghost predicate TaxedLines(items: seq<Taxed>, lines: seq<Line>, interState: bool) {
    |items| == |lines| && forall n :: 0 <= n < |items| ==> items[n] == ItemGst(lines[n], interState)
  }

  /** A new invoice is a draft with nothing paid, under an id of its own, with its lines taxed and
      added up. */
  lemma {:induction false} CreatedAsDraft(s: State, e: Event)
    requires Inv(s) && e.Create? && e.known
    ensures var t := After(s, e);
            && t.invoices.Keys == s.invoices.Keys + {s.nextId} && s.nextId !in s.invoices && t.nextId == s.nextId + 1
            && (forall id :: id in s.invoices ==> t.invoices[id] == s.invoices[id]) && t.payments == s.payments
            && var i := t.invoices[s.nextId];
               && i.tenant == e.tenant && i.invoiceDate == e.invoiceDate && i.dueDate == e.dueDate
               && i.paidAmount == 0 && i.status == DRAFT
               && TaxedLines(i.items, e.lines, e.interState) && i.totals == TotalsOf(i.items)
  {}

  /** An edit sets the dates it gives and keeps the others; new lines are taxed and added up, and
      without any the items stay. */
  lemma {:induction false} EditedAsAsked(s: State, e: Event)
    requires e.Update? && Answer(s, e) == Done
    ensures var i, j := s.invoices[e.id], After(s, e).invoices[e.id];
            && After(s, e) == s.(invoices := s.invoices[e.id := j])
            && j.invoiceDate == e.edit.invoiceDate.GetOr(i.invoiceDate)
            && j.dueDate == (if e.edit.dueDate == None then i.dueDate else e.edit.dueDate)
            && j.tenant == i.tenant && j.paidAmount == i.paidAmount && j.status == DRAFT
            && (e.edit.lines == [] ==> j.items == i.items && j.totals == i.totals)
            && (e.edit.lines != [] ==>
                  TaxedLines(j.items, e.edit.lines, e.edit.interState) && j.totals == TotalsOf(j.items))
  {}

  /** What is refused changes nothing. */
  lemma {:induction false} RefusedIsIgnored(s: State, e: Event)
    requires Answer(s, e) != Done
    ensures After(s, e) == s
  {}

  // ----- The status machine -----

  predicate MayFollow(before: Status, after: Status) {
    || before == after
    || match before
       case DRAFT => after in {SENT, CANCELLED, PARTIAL, PAID}
       case SENT => after in {PARTIAL, PAID, OVERDUE}
       case PARTIAL => after in {PAID, OVERDUE}
       case OVERDUE => after in {PARTIAL, PAID}
       case CANCELLED => after in {PARTIAL, PAID}
       case PAID => false
  }

  /** A step moves a status only along these arrows, leaves items and totals alone once the
      invoice is no draft, and leaves a paid invoice alone altogether. */
  lemma {:induction false} StepMoves(s: State, e: Event, id: nat)
    requires Inv(s) && Valid(e) && id in s.invoices
    ensures id in After(s, e).invoices
    ensures var i, j := s.invoices[id], After(s, e).invoices[id];
            && MayFollow(i.status, j.status) && j.tenant == i.tenant
            && (i.status != DRAFT ==> j.items == i.items && j.totals == i.totals)
            && (i.status == PAID ==> j == i)
  {
    assert Balanced(s.invoices[id], id, s.payments);
  }

  /** Over a run: no invoice becomes a draft again, totals are frozen from the first time it is
      not a draft, and a paid invoice stays as it is. */
  lemma {:induction false} NoWayBack(states: seq<State>, events: seq<Event>, id: nat, j: nat, k: nat)
    requires IsRun(states, events) && states[0] == START && j <= k < |states| && id in states[j].invoices
    requires states[j].invoices[id].status != DRAFT
    ensures id in states[k].invoices && states[k].invoices[id].status != DRAFT
    ensures states[k].invoices[id].items == states[j].invoices[id].items
    ensures states[k].invoices[id].totals == states[j].invoices[id].totals
    ensures states[j].invoices[id].status == PAID ==> states[k].invoices[id] == states[j].invoices[id]
    decreases k
  {
    if j < k {
      NoWayBack(states, events, id, j, k - 1);
      RunKeepsBooks(states, events, k - 1);
      StepMoves(states[k - 1], events[k - 1], id);
    } else {
    }
  }

  /** A cancelled invoice is not final: any payment within its total brings it back. */
  lemma {:induction false} CancelledIsRevived(s: State, tenant: string, id: nat, amount: real)
    requires Inv(s) && Mine(s, tenant, id) && s.invoices[id].status == CANCELLED && amount >= 100.0
    ensures var e := AddPayment(tenant, id, amount);
            && (Answer(s, e) == Done <==> amount <= s.invoices[id].totals.total as real)
            && (Answer(s, e) == Done ==>
                  After(s, e).invoices[id].status ==
                  if amount == s.invoices[id].totals.total as real then PAID else PARTIAL)
  {
    assert Balanced(s.invoices[id], id, s.payments);
    if amount <= s.invoices[id].totals.total as real {
      PaymentBalances(s.invoices[id], id, s.payments, amount);
    }
  }

  // ----- When "paid" and "paid in full" are the same -----

  /** An invoice with something to pay is PAID exactly when all of it is paid. */
  ghost predicate Settled(i: Invoice) {
    i.totals.total > 0 ==> (i.status == PAID <==> i.paidAmount == i.totals.total)
  }

  ghost predicate PaidInFull(s: State) {
    forall id :: id in s.invoices ==> Settled(s.invoices[id])
  }

  /** A payment that the ledger accepts and that leaves something unpaid, but no more than the half
      paisa that the database rounds away. */
  predicate NearMiss(s: State, e: Event) {
    && e.AddPayment? && Answer(s, e) == Done
    && var i := s.invoices[e.id];
       i.totals.total as real - 0.5 <= i.paidAmount as real + e.amount < i.totals.total as real
  }

  lemma {:induction false} RoundsToTotal(paid: real, total: int)
    requires 0.0 <= paid <= total as real
    ensures HalfUp(paid) == total <==> total as real - 0.5 <= paid
  {}

  lemma {:induction false} PaymentSettles(i: Invoice, id: nat, payments: seq<Payment>, amount: real)
    requires Balanced(i, id, payments) && i.status != PAID
    requires amount >= 100.0 && i.paidAmount as real + amount <= i.totals.total as real
    ensures Settled(Paid(i, amount)) <==>
        !(i.totals.total as real - 0.5 <= i.paidAmount as real + amount < i.totals.total as real)
  {
    RoundsToTotal(i.paidAmount as real + amount, i.totals.total);
  }

  /** A step keeps the two the same if and only if it is no such payment. */
  lemma {:induction false} StepPaidInFull(s: State, e: Event)
    requires Inv(s) && PaidInFull(s) && Valid(e)
    ensures PaidInFull(After(s, e)) <==> !NearMiss(s, e)
  {
    var t := After(s, e);
    if e.AddPayment? && Answer(s, e) == Done {
      assert Balanced(s.invoices[e.id], e.id, s.payments);
      PaymentSettles(s.invoices[e.id], e.id, s.payments, e.amount);
      assert e.id in t.invoices && t.invoices[e.id] == Paid(s.invoices[e.id], e.amount);
      assert forall id :: id in t.invoices && id != e.id ==> t.invoices[id] == s.invoices[id];
    } else {
      forall id | id in t.invoices ensures Settled(t.invoices[id]) {
        OtherStepSettles(s, e, id);
      }
    }
  }

  lemma {:induction false} OtherStepSettles(s: State, e: Event, id: nat)
    requires Inv(s) && PaidInFull(s) && !(e.AddPayment? && Answer(s, e) == Done) && id in After(s, e).invoices
    ensures Settled(After(s, e).invoices[id])
  {
    if id in s.invoices {
      assert Settled(s.invoices[id]) && Balanced(s.invoices[id], id, s.payments);
    }
  }

  /** Runs without such payments - in particular those paid in whole paise - have PAID exactly
      for what is paid in full. */
  lemma {:induction false} RunPaidInFull(states: seq<State>, events: seq<Event>, k: nat)
    requires IsRun(states, events) && states[0] == START && k < |states|
    requires forall j :: 0 <= j < |events| ==> !NearMiss(states[j], events[j])
    ensures PaidInFull(states[k])
  {
    if k > 0 {
      RunPaidInFull(states, events, k - 1);
      RunKeepsBooks(states, events, k - 1);
      StepPaidInFull(states[k - 1], events[k - 1]);
    } else {
    }
  }

  lemma {:induction false} WholePaiseNeverMiss(s: State, e: Event)
    requires e.AddPayment? ==> e.amount == e.amount.Floor as real
    ensures !NearMiss(s, e)
  {
    if e.AddPayment? && Answer(s, e) == Done {
      NoGap(s.invoices[e.id].paidAmount, e.amount.Floor, s.invoices[e.id].totals.total);
    }
  }

  lemma {:induction false} NoGap(paid: int, amount: int, total: int)
    ensures !(total as real - 0.5 <= paid as real + amount as real < total as real)
  {
    var gap := total - paid - amount;
    assert gap as real == total as real - paid as real - amount as real;
    if gap >= 1 {
      assert gap as real >= 1.0;
    } else {
      assert gap as real <= 0.0;
    }
  }

  /** After such a payment the invoice is paid to the last paisa but never becomes PAID: every
      further payment is refused. */
  lemma {:induction false} MissedForEver(states: seq<State>, events: seq<Event>, id: nat, j: nat, k: nat)
    requires IsRun(states, events) && states[0] == START && j <= k < |states| && id in states[j].invoices
    requires states[j].invoices[id].paidAmount == states[j].invoices[id].totals.total > 0
    requires states[j].invoices[id].status in {PARTIAL, OVERDUE}
    ensures id in states[k].invoices && states[k].invoices[id].status in {PARTIAL, OVERDUE}
    ensures states[k].invoices[id].paidAmount == states[k].invoices[id].totals.total > 0
    ensures forall tenant, amount :: amount >= 100.0 ==> Answer(states[k], AddPayment(tenant, id, amount)) != Done
    decreases k
  {
    if j < k {
      MissedForEver(states, events, id, j, k - 1);
      RunKeepsBooks(states, events, k - 1);
      StepMoves(states[k - 1], events[k - 1], id);
    } else {
    }
  }

  /** One piece at 1.70 rupees, taxed at 18% within the state: 170 + 15 + 15 paise. */
  const TWO_RUPEES := Line(1.0, 1.7, 0.0, Some(18.0))

  lemma {:induction false} TwoRupees(line: Line)
    requires line.quantity == 1.0 && line.rate == 1.7 && line.discount == 0.0 && RateOf(line) == 18.0
    ensures var l := ItemGst(line, false); l.amount == 170 && l.cgst == l.sgst == 15 && l.igst == 0
  {
    assert Exact(line) == 170.0;
    assert Percent(170.0, 9.0) == 15.3;
  }

  lemma {:induction false} OneLine(line: Line)
    requires var l := ItemGst(line, false); l.amount == 170 && l.cgst == l.sgst == 15 && l.igst == 0
    ensures TotalsOf(ItemsGst([line], false)).total == 200
  {
    TotalsGrow([line], false);
    assert ItemsGst([line][..0], false) == [];
  }

  /** A draft of two rupees, sent. */
  lemma {:induction false} SentForTwoRupees(s: State, tenant: string, lines: seq<Line>, due: Option<int>)
    requires TotalsOf(ItemsGst(lines, false)).total == 200
    requires s == After(After(START, Create(true, tenant, lines, false, 0, due)), Send(tenant, 0))
    ensures s.invoices.Keys == {0} && s.invoices[0].tenant == tenant && s.invoices[0].status == SENT
    ensures s.invoices[0].totals.total == 200 && s.invoices[0].paidAmount == 0 && s.invoices[0].dueDate == due
  {}

  lemma {:induction false} MissesByLittle(s: State, e: Event)
    requires e.AddPayment? && Mine(s, e.tenant, e.id) && s.invoices[e.id].status == SENT
    requires s.invoices[e.id].totals.total == 200 && s.invoices[e.id].paidAmount == 0 && e.amount == 199.6
    ensures Answer(s, e) == Done && NearMiss(s, e)
    ensures After(s, e).invoices[e.id].status == PARTIAL && After(s, e).invoices[e.id].paidAmount == 200
  {}

  /** Such payments exist: 199.6 paise on an invoice of two rupees that was created and sent. */
  lemma {:induction false} NearMissExists(tenant: string, states: seq<State>, events: seq<Event>)
    requires IsRun(states, events) && states[0] == START
    requires |events| == 3 && events[0] == Create(true, tenant, [TWO_RUPEES], false, 0, None)
    requires events[1] == Send(tenant, 0) && events[2] == AddPayment(tenant, 0, 199.6)
    ensures Answer(states[2], events[2]) == Done && NearMiss(states[2], events[2])
    ensures 0 in states[3].invoices && states[3].invoices[0].status == PARTIAL
    ensures states[3].invoices[0].paidAmount == states[3].invoices[0].totals.total == 200
  {
    TwoRupees(TWO_RUPEES);
    OneLine(TWO_RUPEES);
    assert states[1] == After(states[0], events[0]) && states[2] == After(states[1], events[1]);
    SentForTwoRupees(states[2], tenant, [TWO_RUPEES], None);
    MissesByLittle(states[2], events[2]);
    assert states[3] == After(states[2], events[2]);
  }

  // ----- The monthly GST summary of a run's invoices -----

  function BillOf(i: Invoice): Bill {
    Bill(i.totals, i.items)
  }

  /** The query behind the summary; overdue invoices are not in it. */
  predicate InSummary(i: Invoice, tenant: string, from: int, to: int) {
    i.tenant == tenant && i.status in {SENT, PARTIAL, PAID} && from <= i.invoiceDate <= to
  }

  ghost predicate Rows(s: State, rows: seq<nat>, tenant: string, from: int, to: int) {
    forall n :: 0 <= n < |rows| ==> rows[n] in s.invoices && InSummary(s.invoices[rows[n]], tenant, from, to)
  }

  function Bills(s: State, rows: seq<nat>): seq<Bill>
    requires forall n :: 0 <= n < |rows| ==> rows[n] in s.invoices
  {
    if rows == [] then [] else Bills(s, rows[..|rows| - 1]) + [BillOf(s.invoices[rows[|rows| - 1]])]
  }

  lemma {:induction false} BillsAdd(s: State, rows: seq<nat>)
    requires Inv(s) && forall n :: 0 <= n < |rows| ==> rows[n] in s.invoices
    ensures forall b :: b in Bills(s, rows) ==> Adds(b)
    decreases |rows|
  {
    if rows != [] {
      BillsAdd(s, rows[..|rows| - 1]);
      assert Balanced(s.invoices[rows[|rows| - 1]], rows[|rows| - 1], s.payments);
    } else {
    }
  }

  /** Whatever rows the query returns, their summary shares the tax out by rate and adds up. */
  lemma {:induction false} SummaryOfRun(states: seq<State>, events: seq<Event>, k: nat, rows: seq<nat>,
          tenant: string, from: int, to: int)
    requires IsRun(states, events) && states[0] == START && k < |states| && Rows(states[k], rows, tenant, from, to)
    ensures var bills := Bills(states[k], rows);
            && SumBuckets(Buckets(ItemsOf(bills))) == SumTotals(bills)
            && SumTotals(bills).total == SumTotals(bills).subtotal + TaxOf(SumTotals(bills))
  {
    RunKeepsBooks(states, events, k);
    BillsAdd(states[k], rows);
    SummaryPartitions(Bills(states[k], rows));
  }
}
