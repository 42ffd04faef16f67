/** What a sweep job and everyone else do to the ledger: the steps of others, the queries of the
    job, and its updates of the rows, which do not look at the status again. */
module SweepLog {
  import opened Options
  import opened Rounding
  import opened InvoiceLedger

  type Invoices = map<nat, Invoice>

  ghost function Due(invoices: Invoices, now: int): set<nat> {
    set id | id in invoices && DueForSweep(invoices[id], now)
  }

  /** These invoices overdue, all others as they were. */
  ghost function Moved(invoices: Invoices, ids: set<nat>): Invoices {
    map id | id in invoices :: if id in ids then invoices[id].(status := OVERDUE) else invoices[id]
  }

  ghost predicate Distinct(s: seq<nat>) {
    s == [] || (s[|s| - 1] !in s[..|s| - 1] && Distinct(s[..|s| - 1]))
  }

  lemma {:induction false} DistinctAppend(s: seq<nat>, id: nat)
    requires Distinct(s) && id !in s
    ensures Distinct(s + [id])
  {
    assert (s + [id])[..|s|] == s;
  }

  /** Moving a due invoice after others were moved. */
  lemma {:induction false} MoveOne(start: Invoices, ids: set<nat>, id: nat, now: int)
    requires id in Due(Moved(start, ids), now)
    ensures id !in ids && id in Due(start, now)
    ensures Moved(start, ids)[id := Moved(start, ids)[id].(status := OVERDUE)] == Moved(start, ids + {id})
  {}

  lemma {:induction false} DueWithout(invoices: Invoices, id: nat, now: int)
    requires id in invoices
    ensures Due(invoices[id := invoices[id].(status := OVERDUE)], now) == Due(invoices, now) - {id}
  {}

  lemma {:induction false} DueAfterMoving(start: Invoices, moved: set<nat>, now: int)
    ensures Due(Moved(start, moved), now) == Due(start, now) - moved
  {}

  lemma {:induction false} StillDueLater(invoices: Invoices, now: int, later: int)
    requires now <= later
    ensures Due(invoices, now) <= Due(invoices, later)
  {}

  // ----- The log of a job -----

  /** A step of someone else, a query of the job, or its update of a row. */
  datatype Entry = Other(event: Event) | Queried(now: int) | Own(id: nat)

  function MarkedOverdue(s: State, id: nat): State {
    if id in s.invoices then s.(invoices := s.invoices[id := s.invoices[id].(status := OVERDUE)]) else s
  }

  function Applied(s: State, e: Entry): State {
    match e
    case Other(event) => After(s, event)
    case Queried(_) => s
    case Own(id) => MarkedOverdue(s, id)
  }

  function Replayed(start: State, log: seq<Entry>): State {
    if log == [] then start else Applied(Replayed(start, log[..|log| - 1]), log[|log| - 1])
  }

  ghost function OpenAfter(s: State, open: set<nat>, e: Entry): set<nat> {
    match e
    case Other(_) => open
    case Queried(now) => Due(s.invoices, now)
    case Own(id) => open - {id}
  }

  /** The rows of the last query that the job has not updated yet. */
  ghost function Open(start: State, log: seq<Entry>): set<nat> {
    if log == [] then {}
    else
      var before := log[..|log| - 1];
      OpenAfter(Replayed(start, before), Open(start, before), log[|log| - 1])
  }

  /** The job updates each row of its last query at most once. */
  ghost predicate Fits(open: set<nat>, e: Entry) {
    match e
    case Other(event) => Valid(event)
    case Queried(_) => true
    case Own(id) => id in open
  }

  ghost predicate IsLog(start: State, log: seq<Entry>) {
    log == [] || (IsLog(start, log[..|log| - 1]) && Fits(Open(start, log[..|log| - 1]), log[|log| - 1]))
  }

  /** The invoices that the job moved, as often as it did. */
  function Moves(log: seq<Entry>): seq<nat> {
    if log == [] then []
    else
      var before, last := Moves(log[..|log| - 1]), log[|log| - 1];
      if last.Own? then before + [last.id] else before
  }

  function Others(log: seq<Entry>): seq<Event> {
    if log == [] then []
    else
      var before, last := Others(log[..|log| - 1]), log[|log| - 1];
      if last.Other? then before + [last.event] else before
  }

  /** The time of the last query. */
  function LastQuery(log: seq<Entry>): Option<int> {
    if log == [] then None
    else
      var last := log[|log| - 1];
      if last.Queried? then Some(last.now) else LastQuery(log[..|log| - 1])
  }

  ghost predicate QueriedUpTo(log: seq<Entry>, now: int) {
    forall k :: 0 <= k < |log| && log[k].Queried? ==> log[k].now <= now
  }

  lemma {:induction false} OneMore(start: State, log: seq<Entry>, e: Entry)
    requires IsLog(start, log) && Fits(Open(start, log), e)
    ensures IsLog(start, log + [e]) && Replayed(start, log + [e]) == Applied(Replayed(start, log), e)
    ensures Open(start, log + [e]) == OpenAfter(Replayed(start, log), Open(start, log), e)
    ensures Moves(log + [e]) == Moves(log) + if e.Own? then [e.id] else []
    ensures Others(log + [e]) == Others(log) + if e.Other? then [e.event] else []
    ensures LastQuery(log + [e]) == if e.Queried? then Some(e.now) else LastQuery(log)
  {
    assert (log + [e])[..|log|] == log;
    assert Moves(log) + [] == Moves(log) && Others(log) + [] == Others(log);
  }

  lemma {:induction false} Prefix(start: State, log: seq<Entry>, n: nat)
    requires IsLog(start, log) && 0 < n <= |log|
    ensures IsLog(start, log[..n]) && IsLog(start, log[..n - 1])
    ensures Replayed(start, log[..n]) == Applied(Replayed(start, log[..n - 1]), log[n - 1])
    ensures Open(start, log[..n]) == OpenAfter(Replayed(start, log[..n - 1]), Open(start, log[..n - 1]), log[n - 1])
    ensures Fits(Open(start, log[..n - 1]), log[n - 1])
    decreases |log|
  {
    assert log[..n][..n - 1] == log[..n - 1];
    if n < |log| {
      var before := log[..|log| - 1];
      Prefix(start, before, n);
      assert before[..n] == log[..n] && before[..n - 1] == log[..n - 1] && before[n - 1] == log[n - 1];
    } else {
      assert log[..n] == log;
    }
  }

  lemma {:induction false} LastMove(log: seq<Entry>, n: nat)
    requires 0 < n <= |log|
    ensures Moves(log[..n]) == Moves(log[..n - 1]) + if log[n - 1].Own? then [log[n - 1].id] else []
    ensures LastQuery(log[..n]) == if log[n - 1].Queried? then Some(log[n - 1].now) else LastQuery(log[..n - 1])
  {
    assert log[..n][..n - 1] == log[..n - 1];
    assert Moves(log[..n - 1]) + [] == Moves(log[..n - 1]);
  }

  lemma {:induction false} MarkedBalanced(s: State, id: nat)
    requires Inv(s)
    ensures Inv(MarkedOverdue(s, id))
  {
    forall i | i in MarkedOverdue(s, id).invoices
      ensures i < s.nextId && Balanced(MarkedOverdue(s, id).invoices[i], i, s.payments)
    {
      assert Balanced(s.invoices[i], i, s.payments);
    }
  }

  /** A job keeps whatever the ledger's steps keep, also where it marks an invoice that was paid
      since the query. */
  lemma {:induction false} LogKeepsBooks(start: State, log: seq<Entry>, n: nat)
    requires IsLog(start, log) && Inv(start) && n <= |log|
    ensures Inv(Replayed(start, log[..n]))
  {
    if n > 0 {
      LogKeepsBooks(start, log, n - 1);
      Prefix(start, log, n);
      match log[n - 1]
      case Other(event) => StepKeeps(Replayed(start, log[..n - 1]), event);
      case Queried(_) =>
      case Own(id) => MarkedBalanced(Replayed(start, log[..n - 1]), id);
    } else {
    }
  }

  lemma {:induction false} NothingRemoved(s: State, e: Entry, t: State)
    requires t == Applied(s, e)
    ensures s.invoices.Keys <= t.invoices.Keys
  {}

  lemma {:induction false} OpenExists(start: State, log: seq<Entry>, n: nat)
    requires IsLog(start, log) && n <= |log|
    ensures Open(start, log[..n]) <= Replayed(start, log[..n]).invoices.Keys
  {
    if n > 0 {
      OpenExists(start, log, n - 1);
      Prefix(start, log, n);
      NothingRemoved(Replayed(start, log[..n - 1]), log[n - 1], Replayed(start, log[..n]));
    } else {
    }
  }

  // ----- Moved twice only if paid in between -----

  ghost predicate Overdue(s: State, id: nat) {
    id in s.invoices && s.invoices[id].status == OVERDUE
  }

  predicate MovesIt(s: State, e: Event, id: nat) {
    e.Sweep? && e.id == id && Answer(s, e) == Done
  }

  predicate PaysOn(s: State, e: Event, id: nat) {
    e.AddPayment? && e.id == id && Answer(s, e) == Done
  }

  predicate EntryPays(s: State, e: Entry, id: nat) {
    e.Other? && PaysOn(s, e.event, id)
  }

  /** The job marks the invoice, or another sweep moves it. */
  predicate MovedAt(start: State, log: seq<Entry>, id: nat, k: nat)
    requires k < |log|
  {
    log[k] == Own(id) || (log[k].Other? && MovesIt(Replayed(start, log[..k]), log[k].event, id))
  }

  predicate PaidAt(start: State, log: seq<Entry>, id: nat, k: nat)
    requires k < |log|
  {
    EntryPays(Replayed(start, log[..k]), log[k], id)
  }

  /** Overdue, and no row that the job still has to update. */
  ghost predicate Idle(s: State, open: set<nat>, id: nat) {
    Overdue(s, id) && id !in open
  }

  lemma {:induction false} StaysOverdue(s: State, e: Entry, t: State, id: nat)
    requires Overdue(s, id) && Inv(s) && t == Applied(s, e)
    ensures Overdue(t, id) || EntryPays(s, e, id)
  {}

  lemma {:induction false} StaysIdle(s: State, open: set<nat>, e: Entry, t: State, id: nat)
    requires Idle(s, open, id) && Inv(s) && t == Applied(s, e)
    ensures Idle(t, OpenAfter(s, open, e), id) || EntryPays(s, e, id)
  {
    StaysOverdue(s, e, t, id);
  }

  lemma {:induction false} MarkMakesOverdue(s: State, e: Entry, t: State, id: nat)
    requires t == Applied(s, e) && id in s.invoices
    requires e == Own(id) || (e.Other? && MovesIt(s, e.event, id))
    ensures Overdue(t, id)
  {}

  /** A move leaves the invoice idle, unless another sweep moves it while the job has its row in hand. */
  ghost predicate MovedForGood(start: State, log: seq<Entry>, id: nat, k: nat)
    requires k < |log|
  {
    MovedAt(start, log, id, k) && (log[k].Own? || id !in Open(start, log[..k]))
  }

  lemma {:induction false} IdleAtOnce(start: State, log: seq<Entry>, id: nat, k: nat)
    requires IsLog(start, log) && k < |log| && MovedForGood(start, log, id, k)
    ensures Idle(Replayed(start, log[..k + 1]), Open(start, log[..k + 1]), id)
  {
    Prefix(start, log, k + 1);
    OpenExists(start, log, k);
    MarkMakesOverdue(Replayed(start, log[..k]), log[k], Replayed(start, log[..k + 1]), id);
  }

  lemma {:induction false} IdleAfter(start: State, log: seq<Entry>, id: nat, k: nat)
    requires IsLog(start, log) && Inv(start) && k < |log|
    requires Idle(Replayed(start, log[..k]), Open(start, log[..k]), id) && !PaidAt(start, log, id, k)
    ensures Idle(Replayed(start, log[..k + 1]), Open(start, log[..k + 1]), id)
  {
    Prefix(start, log, k + 1);
    LogKeepsBooks(start, log, k);
    StaysIdle(Replayed(start, log[..k]), Open(start, log[..k]), log[k], Replayed(start, log[..k + 1]), id);
  }

  lemma {:induction false} IdleSince(start: State, log: seq<Entry>, id: nat, j: nat, k: nat)
    requires IsLog(start, log) && Inv(start) && j < k < |log| && MovedForGood(start, log, id, j)
    requires forall m :: j < m < k ==> !PaidAt(start, log, id, m)
    ensures Idle(Replayed(start, log[..k]), Open(start, log[..k]), id)
    decreases k
  {
    if j < k - 1 {
      IdleSince(start, log, id, j, k - 1);
      IdleAfter(start, log, id, k - 1);
    } else {
      IdleAtOnce(start, log, id, j);
    }
  }

  lemma {:induction false} IdleIsNotMoved(start: State, log: seq<Entry>, id: nat, k: nat)
    requires IsLog(start, log) && k < |log| && Idle(Replayed(start, log[..k]), Open(start, log[..k]), id)
    ensures !MovedAt(start, log, id, k)
  {
    Prefix(start, log, k + 1);
  }

  /** However often a job is tried and whatever others do meanwhile: between two moves of the same
      invoice a payment on it was accepted - unless the first is by another sweep, at a time when
      this job has the row in hand. */
  lemma {:induction false} MovedTwice(start: State, log: seq<Entry>, id: nat, j: nat, k: nat)
    requires IsLog(start, log) && Inv(start) && j < k < |log|
    requires MovedForGood(start, log, id, j) && MovedAt(start, log, id, k)
    ensures exists m :: j < m < k && PaidAt(start, log, id, m)
  {
    if forall m :: j < m < k ==> !PaidAt(start, log, id, m) {
      IdleSince(start, log, id, j, k);
      IdleIsNotMoved(start, log, id, k);
    }
  }

  /** Such a payment does bring it back: it is due again at once. */
  lemma {:induction false} RevivedByPayment(s: State, e: Event, id: nat, now: int)
    requires Inv(s) && Overdue(s, id) && PaysOn(s, e, id) && Valid(e)
    ensures var i := s.invoices[id];
            MovesIt(After(s, e), Event.Sweep(now, id), id) <==>
            i.paidAmount as real + e.amount < i.totals.total as real && i.dueDate.Some? && i.dueDate.value < now
  {
    assert Balanced(s.invoices[id], id, s.payments);
  }

  /** The payments on an invoice that were accepted in the first n entries. */
  function PaymentsOn(start: State, log: seq<Entry>, id: nat, n: nat): nat
    requires n <= |log|
  {
    if n == 0 then 0 else PaymentsOn(start, log, id, n - 1) + if PaidAt(start, log, id, n - 1) then 1 else 0
  }

  function TimesIn(ids: seq<nat>, id: nat): nat {
    multiset(ids)[id]
  }

  ghost function Pending(s: State, open: set<nat>, id: nat): nat {
    if Idle(s, open, id) then 0 else 1
  }

  lemma {:induction false} StepPending(s: State, open: set<nat>, e: Entry, t: State, id: nat)
    requires Inv(s) && Fits(open, e) && open <= s.invoices.Keys && t == Applied(s, e)
    ensures Pending(t, OpenAfter(s, open, e), id) + (if e == Own(id) then 1 else 0)
            <= Pending(s, open, id) + if EntryPays(s, e, id) then 1 else 0
  {
    if Idle(s, open, id) {
      StaysIdle(s, open, e, t, id);
    } else if e == Own(id) {
      MarkMakesOverdue(s, e, t, id);
    }
  }

  /** A job moves an invoice at most once more often than payments on it are accepted meanwhile. */
  lemma {:induction false} MovesBounded(start: State, log: seq<Entry>, id: nat, n: nat)
    requires IsLog(start, log) && Inv(start) && n <= |log|
    ensures TimesIn(Moves(log[..n]), id) + Pending(Replayed(start, log[..n]), Open(start, log[..n]), id)
            <= PaymentsOn(start, log, id, n) + 1
  {
    if n > 0 {
      MovesBounded(start, log, id, n - 1);
      Prefix(start, log, n);
      LastMove(log, n);
      LogKeepsBooks(start, log, n - 1);
      OpenExists(start, log, n - 1);
      StepPending(Replayed(start, log[..n - 1]), Open(start, log[..n - 1]), log[n - 1], Replayed(start, log[..n]), id);
    } else {
    }
  }

  // ----- Paid between the query and the row -----

  ghost predicate IsPaid(s: State, id: nat) {
    id in s.invoices && s.invoices[id].status == PAID
  }

  /** Entry k comes after the query q and before any later one. */
  ghost predicate RowsOf(log: seq<Entry>, q: nat, k: nat)
    requires q < k <= |log|
  {
    log[q].Queried? && forall m :: q < m < k ==> !log[m].Queried?
  }

  /** A payment that makes the invoice PAID. */
  ghost predicate SettledAt(start: State, log: seq<Entry>, id: nat, k: nat)
    requires k < |log|
  {
    PaidAt(start, log, id, k) && IsPaid(Replayed(start, log[..k + 1]), id)
  }

  lemma {:induction false} OpenBefore(start: State, log: seq<Entry>, id: nat, k: nat)
    requires IsLog(start, log) && k < |log| && id in Open(start, log[..k + 1]) && !log[k].Queried?
    ensures id in Open(start, log[..k]) && log[k] != Own(id)
  {
    Prefix(start, log, k + 1);
  }

  lemma {:induction false} OwnIsOpen(start: State, log: seq<Entry>, id: nat, k: nat)
    requires IsLog(start, log) && k < |log| && log[k] == Own(id)
    ensures id in Open(start, log[..k])
  {
    Prefix(start, log, k + 1);
  }

  /** A row that is still open has been open since the query. */
  lemma {:induction false} StillOpen(start: State, log: seq<Entry>, id: nat, n: nat, k: nat)
    requires IsLog(start, log) && n <= k <= |log| && id in Open(start, log[..k])
    requires forall m :: n <= m < k ==> !log[m].Queried?
    ensures id in Open(start, log[..n]) && forall m :: n <= m < k ==> log[m] != Own(id)
    decreases k
  {
    if n < k {
      OpenBefore(start, log, id, k - 1);
      StillOpen(start, log, id, n, k - 1);
    } else {
    }
  }

  lemma {:induction false} StepPaid(s: State, e: Entry, t: State, id: nat)
    requires Inv(s) && t == Applied(s, e) && id in s.invoices && e != Own(id)
    ensures id in t.invoices && (IsPaid(t, id) <==> IsPaid(s, id) || (EntryPays(s, e, id) && IsPaid(t, id)))
  {
    if e.Other? {
      assert Balanced(s.invoices[id], id, s.payments);
    }
  }

  lemma {:induction false} PaidNext(start: State, log: seq<Entry>, id: nat, k: nat)
    requires IsLog(start, log) && Inv(start) && k < |log| && log[k] != Own(id)
    requires id in Replayed(start, log[..k]).invoices
    ensures id in Replayed(start, log[..k + 1]).invoices
    ensures IsPaid(Replayed(start, log[..k + 1]), id) <==>
            IsPaid(Replayed(start, log[..k]), id) || SettledAt(start, log, id, k)
  {
    Prefix(start, log, k + 1);
    LogKeepsBooks(start, log, k);
    StepPaid(Replayed(start, log[..k]), log[k], Replayed(start, log[..k + 1]), id);
  }

  ghost predicate SettledBetween(start: State, log: seq<Entry>, id: nat, n: nat, k: nat)
    requires k <= |log|
  {
    exists m :: n <= m < k && SettledAt(start, log, id, m)
  }

  lemma {:induction false} SettledNext(start: State, log: seq<Entry>, id: nat, n: nat, k: nat)
    requires n <= k < |log|
    ensures SettledBetween(start, log, id, n, k + 1) <==>
            SettledBetween(start, log, id, n, k) || SettledAt(start, log, id, k)
  {}

  lemma {:induction false} PaidSince(start: State, log: seq<Entry>, id: nat, n: nat, k: nat)
    requires IsLog(start, log) && Inv(start) && n <= k <= |log|
    requires id in Replayed(start, log[..n]).invoices && !IsPaid(Replayed(start, log[..n]), id)
    requires forall m :: n <= m < k ==> log[m] != Own(id)
    ensures id in Replayed(start, log[..k]).invoices
    ensures IsPaid(Replayed(start, log[..k]), id) <==> SettledBetween(start, log, id, n, k)
    decreases k
  {
    if n < k {
      PaidSince(start, log, id, n, k - 1);
      PaidNext(start, log, id, k - 1);
      SettledNext(start, log, id, n, k - 1);
    } else {
    }
  }

  lemma {:induction false} QueriedUnpaid(start: State, log: seq<Entry>, id: nat, q: nat)
    requires IsLog(start, log) && q < |log| && log[q].Queried? && id in Open(start, log[..q + 1])
    ensures var s := Replayed(start, log[..q + 1]); id in s.invoices && !IsPaid(s, id)
  {
    Prefix(start, log, q + 1);
  }

  /** The job marks an invoice that is PAID if and only if the payment that settled it came between
      the job's query and its update of the row. */
  lemma {:induction false} OverwritesPaidExactly(start: State, log: seq<Entry>, id: nat, q: nat, k: nat)
    requires IsLog(start, log) && Inv(start) && q < k < |log| && RowsOf(log, q, k) && log[k] == Own(id)
    ensures IsPaid(Replayed(start, log[..k]), id) <==> SettledBetween(start, log, id, q + 1, k)
  {
    OwnIsOpen(start, log, id, k);
    StillOpen(start, log, id, q + 1, k);
    QueriedUnpaid(start, log, id, q);
    PaidSince(start, log, id, q + 1, k);
  }

  /** All is paid, and yet the invoice is overdue. */
  ghost predicate OverdueInFull(s: State, id: nat) {
    Overdue(s, id) && s.invoices[id].paidAmount == s.invoices[id].totals.total > 0
  }

  lemma {:induction false} OverwriteStep(s: State, id: nat, t: State)
    requires Inv(s) && IsPaid(s, id) && t == Applied(s, Own(id))
    ensures OverdueInFull(t, id)
  {
    assert Balanced(s.invoices[id], id, s.payments);
  }

  lemma {:induction false} StaysInFull(s: State, e: Entry, t: State, id: nat)
    requires Inv(s) && OverdueInFull(s, id) && t == Applied(s, e) && (e.Other? ==> Valid(e.event))
    ensures OverdueInFull(t, id)
  {}

  lemma {:induction false} InFullAfter(start: State, log: seq<Entry>, id: nat, k: nat)
    requires IsLog(start, log) && Inv(start) && k < |log|
    requires var s := Replayed(start, log[..k]); OverdueInFull(s, id) || (IsPaid(s, id) && log[k] == Own(id))
    ensures OverdueInFull(Replayed(start, log[..k + 1]), id)
  {
    Prefix(start, log, k + 1);
    LogKeepsBooks(start, log, k);
    if IsPaid(Replayed(start, log[..k]), id) {
      OverwriteStep(Replayed(start, log[..k]), id, Replayed(start, log[..k + 1]));
    } else {
      StaysInFull(Replayed(start, log[..k]), log[k], Replayed(start, log[..k + 1]), id);
    }
  }

  lemma {:induction false} InFullIsRefused(s: State, id: nat, tenant: string, amount: real)
    requires OverdueInFull(s, id) && amount >= 100.0
    ensures Answer(s, AddPayment(tenant, id, amount)) != Done
  {}

  /** Such an invoice stays overdue in full, and every further payment on it is refused. */
  lemma {:induction false} OverwrittenForEver(start: State, log: seq<Entry>, id: nat, k: nat, n: nat)
    requires IsLog(start, log) && Inv(start) && k < n <= |log| && log[k] == Own(id)
    requires IsPaid(Replayed(start, log[..k]), id)
    ensures OverdueInFull(Replayed(start, log[..n]), id)
    ensures forall tenant, amount :: amount >= 100.0 ==>
              Answer(Replayed(start, log[..n]), AddPayment(tenant, id, amount)) != Done
    decreases n
  {
    if k < n - 1 {
      OverwrittenForEver(start, log, id, k, n - 1);
    }
    InFullAfter(start, log, id, n - 1);
    forall tenant, amount | amount >= 100.0
      ensures Answer(Replayed(start, log[..n]), AddPayment(tenant, id, amount)) != Done
    {
      InFullIsRefused(Replayed(start, log[..n]), id, tenant, amount);
    }
  }

  // ----- A job that nobody disturbs -----

  lemma {:induction false} NoOthers(log: seq<Entry>, k: nat)
    requires Others(log) == [] && k < |log|
    ensures !log[k].Other?
    decreases |log|
  {
    if k < |log| - 1 {
      NoOthers(log[..|log| - 1], k);
    } else {
    }
  }

  function AsSet(ids: seq<nat>): set<nat> {
    set id | id in ids
  }

  ghost predicate MovedInTurn(start: State, moves: seq<nat>, now: int, s: State) {
    && s == start.(invoices := Moved(start.invoices, AsSet(moves)))
    && Distinct(moves) && AsSet(moves) <= Due(start.invoices, now)
  }

  lemma {:induction false} NoneMoved(start: State, now: int)
    ensures MovedInTurn(start, [], now, start)
  {
    assert Moved(start.invoices, AsSet([])) == start.invoices;
  }

  lemma {:induction false} MovedNextInTurn(start: State, moves: seq<nat>, now: int, s: State, id: nat)
    requires MovedInTurn(start, moves, now, s) && id in Due(start.invoices, now) && id !in moves
    ensures MovedInTurn(start, moves + [id], now, MarkedOverdue(s, id))
    ensures MarkedOverdue(s, id) == After(s, Event.Sweep(now, id))
  {
    DueAfterMoving(start.invoices, AsSet(moves), now);
    assert id in Due(s.invoices, now);
    MoveOne(start.invoices, AsSet(moves), id, now);
    DistinctAppend(moves, id);
    assert AsSet(moves + [id]) == AsSet(moves) + {id};
  }

  /** The open rows are among the invoices that were due at first and are not moved yet. */
  ghost predicate OpenInTurn(start: State, moves: seq<nat>, now: int, open: set<nat>) {
    forall id :: id in open ==> id in Due(start.invoices, now) && id !in moves
  }

  lemma {:induction false} QueryInTurn(start: State, moves: seq<nat>, now: int, s: State, at: int)
    requires MovedInTurn(start, moves, now, s) && at <= now
    ensures OpenInTurn(start, moves, now, Due(s.invoices, at))
  {
    StillDueLater(s.invoices, at, now);
    DueAfterMoving(start.invoices, AsSet(moves), now);
  }

  lemma {:induction false} OwnStep(start: State, moves: seq<nat>, now: int, s: State, open: set<nat>, e: Entry)
    requires MovedInTurn(start, moves, now, s) && OpenInTurn(start, moves, now, open)
    requires !e.Other? && Fits(open, e) && (e.Queried? ==> e.now <= now)
    ensures var more := moves + if e.Own? then [e.id] else [];
            MovedInTurn(start, more, now, Applied(s, e)) && OpenInTurn(start, more, now, OpenAfter(s, open, e))
  {
    if e.Own? {
      MovedNextInTurn(start, moves, now, s, e.id);
    } else {
      QueryInTurn(start, moves, now, s, e.now);
      assert moves + [] == moves;
    }
  }

  /** Own steps only: each moves another of the invoices that were due, and nothing else changes. */
  lemma {:induction false} OwnSteps(start: State, log: seq<Entry>, now: int, n: nat)
    requires IsLog(start, log) && Others(log) == [] && QueriedUpTo(log, now) && n <= |log|
    ensures MovedInTurn(start, Moves(log[..n]), now, Replayed(start, log[..n]))
    ensures OpenInTurn(start, Moves(log[..n]), now, Open(start, log[..n]))
  {
    if n > 0 {
      OwnSteps(start, log, now, n - 1);
      Prefix(start, log, n);
      NoOthers(log, n - 1);
      LastMove(log, n);
      OwnStep(start, Moves(log[..n - 1]), now, Replayed(start, log[..n - 1]), Open(start, log[..n - 1]), log[n - 1]);
    } else {
      NoneMoved(start, now);
    }
  }

  lemma {:induction false} OpenStaysDue(s: State, open: set<nat>, at: int, id: nat)
    requires open == Due(s.invoices, at) && id in open
    ensures OpenAfter(s, open, Own(id)) == Due(MarkedOverdue(s, id).invoices, at)
  {
    DueWithout(s.invoices, id, at);
  }

  /** Without others, the open rows are what was due at the query and still is. */
  lemma {:induction false} OpenIsDue(start: State, log: seq<Entry>, n: nat)
    requires IsLog(start, log) && Others(log) == [] && n <= |log| && LastQuery(log[..n]).Some?
    ensures Open(start, log[..n]) == Due(Replayed(start, log[..n]).invoices, LastQuery(log[..n]).value)
  {
    if n > 0 {
      Prefix(start, log, n);
      NoOthers(log, n - 1);
      LastMove(log, n);
      if log[n - 1].Own? {
        OpenIsDue(start, log, n - 1);
        var s, open := Replayed(start, log[..n - 1]), Open(start, log[..n - 1]);
        OpenStaysDue(s, open, LastQuery(log[..n]).value, log[n - 1].id);
      }
    } else {
    }
  }

  lemma {:induction false} NothingLeft(due: set<nat>, moved: set<nat>)
    requires moved <= due && due - moved == {}
    ensures moved == due
  {
    forall id | id in due ensures id in moved {
      assert id in moved || id in due - moved;
    }
  }

  lemma {:induction false} AllMoved(start: State, moves: seq<nat>, now: int, s: State)
    requires MovedInTurn(start, moves, now, s) && Due(s.invoices, now) == {}
    ensures AsSet(moves) == Due(start.invoices, now)
  {
    DueAfterMoving(start.invoices, AsSet(moves), now);
    NothingLeft(Due(start.invoices, now), AsSet(moves));
  }

  /** When all rows of the last query are updated, exactly the invoices that were due have been
      moved, each once, and nothing else has changed. */
  lemma {:induction false} Undisturbed(start: State, log: seq<Entry>, now: int)
    requires IsLog(start, log) && Others(log) == [] && QueriedUpTo(log, now)
    requires LastQuery(log) == Some(now) && Open(start, log) == {}
    ensures AsSet(Moves(log)) == Due(start.invoices, now) && Distinct(Moves(log))
    ensures Replayed(start, log) == start.(invoices := Moved(start.invoices, Due(start.invoices, now)))
  {
    assert log[..|log|] == log;
    OwnSteps(start, log, now, |log|);
    OpenIsDue(start, log, |log|);
    AllMoved(start, Moves(log), now, Replayed(start, log));
  }

  /** The ledger's own sweep of these invoices, one after another. */
  function Swept(s: State, ids: seq<nat>, now: int): State {
    if ids == [] then s else After(Swept(s, ids[..|ids| - 1], now), Event.Sweep(now, ids[|ids| - 1]))
  }

  function Updates(ids: seq<nat>): seq<Entry> {
    seq(|ids|, i requires 0 <= i < |ids| => Own(ids[i]))
  }

  function AttemptOn(ids: seq<nat>, now: int): seq<Entry> {
    [Queried(now)] + Updates(ids)
  }

  lemma {:induction false} AttemptLast(ids: seq<nat>, id: nat, now: int)
    ensures AttemptOn(ids + [id], now) == AttemptOn(ids, now) + [Own(id)]
  {}

  /** The log of an undisturbed attempt, and the ledger's own sweep of the same invoices. */
  ghost predicate SweepsAlike(s: State, ids: seq<nat>, now: int, log: seq<Entry>, t: State) {
    && IsLog(s, log) && Moves(log) == ids && Replayed(s, log) == t
    && MovedInTurn(s, ids, now, t) && Open(s, log) == Due(s.invoices, now) - AsSet(ids)
  }

  lemma {:induction false} SweepsAlikeNext(s: State, ids: seq<nat>, now: int, log: seq<Entry>, t: State, id: nat)
    requires SweepsAlike(s, ids, now, log, t) && id in Due(s.invoices, now) && id !in ids
    ensures SweepsAlike(s, ids + [id], now, log + [Own(id)], After(t, Event.Sweep(now, id)))
  {
    assert id in Open(s, log);
    OneMore(s, log, Own(id));
    MovedNextInTurn(s, ids, now, t, id);
    assert AsSet(ids + [id]) == AsSet(ids) + {id};
  }

  /** Undisturbed, the updates of a job are the ledger's own steps, in whatever order of the rows. */
  lemma {:induction false} MovedBySteps(s: State, ids: seq<nat>, now: int)
    requires Distinct(ids) && forall id :: id in ids ==> id in Due(s.invoices, now)
    ensures SweepsAlike(s, ids, now, AttemptOn(ids, now), Swept(s, ids, now))
    decreases |ids|
  {
    if ids != [] {
      var before, last := ids[..|ids| - 1], ids[|ids| - 1];
      MovedBySteps(s, before, now);
      assert ids == before + [last];
      AttemptLast(before, last, now);
      SweepsAlikeNext(s, before, now, AttemptOn(before, now), Swept(s, before, now), last);
    } else {
      OneMore(s, [], Queried(now));
      assert AttemptOn(ids, now) == [] + [Queried(now)];
      NoneMoved(s, now);
    }
  }

  // ----- Messages -----

  function Phoned(ids: seq<nat>, phones: set<nat>): seq<nat> {
    if ids == [] then []
    else
      var before, last := Phoned(ids[..|ids| - 1], phones), ids[|ids| - 1];
      if last in phones then before + [last] else before
  }

  /** The count is the number of moves. For each move a notification was queued, and a reminder
      if there is a phone, except for those that are lost; whoever lost the reminder lost the
      notification too. */
  ghost predicate Books(phones: set<nat>, moves: seq<nat>, count: nat, reminders: seq<nat>, notices: seq<nat>,
                        unreminded: multiset<nat>, unnotified: multiset<nat>) {
    && count == |moves|
    && multiset(notices) + unnotified == multiset(moves)
    && multiset(reminders) + unreminded == multiset(Phoned(moves, phones))
    && unreminded <= unnotified
  }

  function Reminded(reminders: seq<nat>, phones: set<nat>, id: nat): seq<nat> {
    if id in phones then reminders + [id] else reminders
  }

  lemma {:induction false} OneMorePhoned(moves: seq<nat>, phones: set<nat>, id: nat)
    ensures Phoned(moves + [id], phones) == Reminded(Phoned(moves, phones), phones, id)
  {
    assert (moves + [id])[..|moves|] == moves;
  }

  lemma {:induction false} BooksTold(phones: set<nat>, moves: seq<nat>, count: nat, reminders: seq<nat>,
          notices: seq<nat>, unreminded: multiset<nat>, unnotified: multiset<nat>, id: nat)
    requires Books(phones, moves, count, reminders, notices, unreminded, unnotified)
    ensures Books(phones, moves + [id], count + 1, Reminded(reminders, phones, id), notices + [id],
                  unreminded, unnotified)
  {
    OneMorePhoned(moves, phones, id);
  }

  lemma {:induction false} BooksUnnotified(phones: set<nat>, moves: seq<nat>, count: nat, reminders: seq<nat>,
          notices: seq<nat>, unreminded: multiset<nat>, unnotified: multiset<nat>, id: nat)
    requires Books(phones, moves, count, reminders, notices, unreminded, unnotified)
    ensures Books(phones, moves + [id], count + 1, Reminded(reminders, phones, id), notices,
                  unreminded, unnotified + multiset{id})
  {
    OneMorePhoned(moves, phones, id);
  }

  lemma {:induction false} BooksUnreminded(phones: set<nat>, moves: seq<nat>, count: nat, reminders: seq<nat>,
          notices: seq<nat>, unreminded: multiset<nat>, unnotified: multiset<nat>, id: nat)
    requires Books(phones, moves, count, reminders, notices, unreminded, unnotified) && id in phones
    ensures Books(phones, moves + [id], count + 1, reminders, notices,
                  unreminded + multiset{id}, unnotified + multiset{id})
  {
    OneMorePhoned(moves, phones, id);
  }

  lemma {:induction false} PhonedWithin(ids: seq<nat>, phones: set<nat>, id: nat)
    ensures TimesIn(Phoned(ids, phones), id) <= TimesIn(ids, id)
    decreases |ids|
  {
    if ids != [] {
      PhonedWithin(ids[..|ids| - 1], phones, id);
      assert ids == ids[..|ids| - 1] + [ids[|ids| - 1]];
    } else {
    }
  }

  /** An invoice gets no more reminders, and no more notifications, than it was moved. */
  lemma {:induction false} ToldWithin(phones: set<nat>, moves: seq<nat>, count: nat, reminders: seq<nat>,
          notices: seq<nat>, unreminded: multiset<nat>, unnotified: multiset<nat>, id: nat)
    requires Books(phones, moves, count, reminders, notices, unreminded, unnotified)
    ensures TimesIn(reminders, id) <= TimesIn(moves, id) && TimesIn(notices, id) <= TimesIn(moves, id)
  {
    PhonedWithin(moves, phones, id);
    assert (multiset(reminders) + unreminded)[id] == multiset(reminders)[id] + unreminded[id];
    assert (multiset(notices) + unnotified)[id] == multiset(notices)[id] + unnotified[id];
  }

  /** A job reminds of an invoice, and notifies of it, at most once more often than payments on it
      are accepted meanwhile. */
  lemma {:induction false} RemindersBounded(start: State, log: seq<Entry>, phones: set<nat>, count: nat,
          reminders: seq<nat>, notices: seq<nat>, unreminded: multiset<nat>, unnotified: multiset<nat>, id: nat)
    requires IsLog(start, log) && Inv(start)
    requires Books(phones, Moves(log), count, reminders, notices, unreminded, unnotified)
    ensures TimesIn(reminders, id) <= PaymentsOn(start, log, id, |log|) + 1
    ensures TimesIn(notices, id) <= PaymentsOn(start, log, id, |log|) + 1
  {
    assert log[..|log|] == log;
    MovesBounded(start, log, id, |log|);
    ToldWithin(phones, Moves(log), count, reminders, notices, unreminded, unnotified, id);
  }

  lemma {:induction false} NonePaid(start: State, log: seq<Entry>, id: nat, n: nat)
    requires Others(log) == [] && n <= |log|
    ensures PaymentsOn(start, log, id, n) == 0
  {
    if n > 0 {
      NonePaid(start, log, id, n - 1);
      NoOthers(log, n - 1);
    } else {
    }
  }

  /** Undisturbed, it does so at most once. */
  lemma {:induction false} RemindedOnce(start: State, log: seq<Entry>, phones: set<nat>, count: nat,
          reminders: seq<nat>, notices: seq<nat>, unreminded: multiset<nat>, unnotified: multiset<nat>, id: nat)
    requires IsLog(start, log) && Inv(start) && Others(log) == []
    requires Books(phones, Moves(log), count, reminders, notices, unreminded, unnotified)
    ensures TimesIn(reminders, id) <= 1 && TimesIn(notices, id) <= 1
  {
    NonePaid(start, log, id, |log|);
    RemindersBounded(start, log, phones, count, reminders, notices, unreminded, unnotified, id);
  }

  // ----- Three jobs -----

  /** A ledger with one invoice of two rupees, due at 0. */
  ghost predicate Single(s: State, tenant: string, status: Status, paid: nat) {
    && s.invoices.Keys == {0} && s.invoices[0].tenant == tenant && s.invoices[0].status == status
    && s.invoices[0].totals.total == 200 && s.invoices[0].paidAmount == paid && s.invoices[0].dueDate == Some(0)
  }

  lemma {:induction false} SingleDue(s: State, tenant: string, status: Status, paid: nat, now: int)
    requires Single(s, tenant, status, paid) && status in {SENT, PARTIAL} && now > 0
    ensures Due(s.invoices, now) == {0} && MovesIt(s, Event.Sweep(now, 0), 0)
  {}

  lemma {:induction false} SingleMarked(s: State, tenant: string, status: Status, paid: nat)
    requires Single(s, tenant, status, paid)
    ensures Single(MarkedOverdue(s, 0), tenant, OVERDUE, paid)
  {}

  lemma {:induction false} SinglePaid(s: State, tenant: string, status: Status, paid: nat, amount: nat, t: State)
    requires Single(s, tenant, status, paid) && status in {SENT, OVERDUE} && 100 <= amount && paid + amount <= 200
    requires t == After(s, AddPayment(tenant, 0, amount as real))
    ensures Single(t, tenant, if paid + amount == 200 then PAID else PARTIAL, paid + amount)
    ensures PaysOn(s, AddPayment(tenant, 0, amount as real), 0)
  {
    HalfUpWhole(paid + amount);
    assert paid as real + amount as real == (paid + amount) as real;
  }

  /** An invoice of two rupees that was created and sent. */
  function SentForTwo(tenant: string): State {
    After(After(START, Create(true, tenant, [TWO_RUPEES], false, 0, Some(0))), Send(tenant, 0))
  }

  lemma {:induction false} SentForTwoIsSingle(tenant: string)
    ensures Single(SentForTwo(tenant), tenant, SENT, 0) && Inv(SentForTwo(tenant))
  {
    TwoRupees(TWO_RUPEES);
    OneLine(TWO_RUPEES);
    SentForTwoRupees(SentForTwo(tenant), tenant, [TWO_RUPEES], Some(0));
    StepKeeps(START, Create(true, tenant, [TWO_RUPEES], false, 0, Some(0)));
    StepKeeps(After(START, Create(true, tenant, [TWO_RUPEES], false, 0, Some(0))), Send(tenant, 0));
  }

  lemma {:induction false} FirstQuery(s: State, tenant: string, log: seq<Entry>)
    requires Single(s, tenant, SENT, 0) && log == [Queried(1)]
    ensures IsLog(s, log) && Replayed(s, log) == s && Open(s, log) == {0} && Moves(log) == []
  {
    OneMore(s, [], Queried(1));
    assert log == [] + [Queried(1)];
    SingleDue(s, tenant, SENT, 0, 1);
  }

  lemma {:induction false} OwnMarks(start: State, log: seq<Entry>, tenant: string, status: Status, paid: nat)
    requires IsLog(start, log) && Single(Replayed(start, log), tenant, status, paid) && Open(start, log) == {0}
    ensures var more := log + [Own(0)];
            && IsLog(start, more) && Single(Replayed(start, more), tenant, OVERDUE, paid)
            && Open(start, more) == {} && Moves(more) == Moves(log) + [0]
  {
    OneMore(start, log, Own(0));
    SingleMarked(Replayed(start, log), tenant, status, paid);
  }

  lemma {:induction false} OtherPays(start: State, log: seq<Entry>, tenant: string, status: Status, amount: nat)
    requires IsLog(start, log) && Single(Replayed(start, log), tenant, status, 0) && status in {SENT, OVERDUE}
    requires amount == 100 || amount == 200
    ensures var more := log + [Other(AddPayment(tenant, 0, amount as real))];
            && IsLog(start, more) && Open(start, more) == Open(start, log) && Moves(more) == Moves(log)
            && Single(Replayed(start, more), tenant, if amount == 200 then PAID else PARTIAL, amount)
  {
    var e := AddPayment(tenant, 0, amount as real);
    OneMore(start, log, Other(e));
    SinglePaid(Replayed(start, log), tenant, status, 0, amount, After(Replayed(start, log), e));
    assert Moves(log) + [] == Moves(log);
  }

  lemma {:induction false} SecondQuery(start: State, log: seq<Entry>, tenant: string)
    requires IsLog(start, log) && Single(Replayed(start, log), tenant, PARTIAL, 100)
    ensures var more := log + [Queried(2)];
            && IsLog(start, more) && Open(start, more) == {0} && Moves(more) == Moves(log)
            && Replayed(start, more) == Replayed(start, log)
  {
    OneMore(start, log, Queried(2));
    SingleDue(Replayed(start, log), tenant, PARTIAL, 100, 2);
    assert Moves(log) + [] == Moves(log);
  }

  /** An invoice that is moved, paid in part before the next attempt, and moved again: with a phone,
      that makes two reminders. */
  lemma {:induction false} MovedTwiceExists(tenant: string, s: State, log: seq<Entry>)
    requires s == SentForTwo(tenant)
    requires log == [Queried(1)] + [Own(0)] + [Other(AddPayment(tenant, 0, 100.0))] + [Queried(2)] + [Own(0)]
    ensures Inv(s) && IsLog(s, log) && Moves(log) == [0] + [0] && Phoned(Moves(log), {0}) == [0] + [0]
  {
    SentForTwoIsSingle(tenant);
    var one := [Queried(1)];
    var two := one + [Own(0)];
    var three := two + [Other(AddPayment(tenant, 0, 100.0))];
    FirstQuery(s, tenant, one);
    OwnMarks(s, one, tenant, SENT, 0);
    OtherPays(s, two, tenant, OVERDUE, 100);
    SecondQuery(s, three, tenant);
    OwnMarks(s, three + [Queried(2)], tenant, PARTIAL, 100);
    assert Moves(two) == [] + [0] == [0];
    OneMorePhoned([], {0}, 0);
    OneMorePhoned([0], {0}, 0);
    assert [] + [0] == [0];
  }

  /** An invoice that is paid in full between the query and its row: the job makes it overdue. */
  lemma {:induction false} PaidIsOverwritten(tenant: string, s: State, log: seq<Entry>)
    requires s == SentForTwo(tenant)
    requires log == [Queried(1)] + [Other(AddPayment(tenant, 0, 200.0))] + [Own(0)]
    ensures Inv(s) && IsLog(s, log) && Moves(log) == [0]
    ensures IsPaid(Replayed(s, log[..2]), 0) && OverdueInFull(Replayed(s, log), 0)
  {
    SentForTwoIsSingle(tenant);
    var one := [Queried(1)];
    var two := one + [Other(AddPayment(tenant, 0, 200.0))];
    assert log[..2] == two;
    FirstQuery(s, tenant, one);
    OtherPays(s, one, tenant, SENT, 200);
    OwnMarks(s, two, tenant, PAID, 200);
  }

  /** Two sweeps at the same time: both move the invoice, and nobody pays. */
  lemma {:induction false} SweptByBoth(tenant: string, s: State, log: seq<Entry>)
    requires s == SentForTwo(tenant) && log == [Queried(1)] + [Other(Event.Sweep(1, 0))] + [Own(0)]
    ensures Inv(s) && IsLog(s, log) && MovedAt(s, log, 0, 1) && MovedAt(s, log, 0, 2)
    ensures PaymentsOn(s, log, 0, 3) == 0
  {
    SentForTwoIsSingle(tenant);
    var one := [Queried(1)];
    FirstQuery(s, tenant, one);
    SingleDue(s, tenant, SENT, 0, 1);
    OneMore(s, one, Other(Event.Sweep(1, 0)));
    OneMore(s, one + [Other(Event.Sweep(1, 0))], Own(0));
    assert log[..1] == one;
    assert PaymentsOn(s, log, 0, 0) == 0;
    assert PaymentsOn(s, log, 0, 1) == 0;
    assert PaymentsOn(s, log, 0, 2) == 0;
  }
}
