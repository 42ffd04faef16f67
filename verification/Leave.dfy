/** Leave requests and the attendance they write, with the other writer of the register,
    `mark`. Each handler runs as one step. */
module Leave {
  import opened Calendar
  import opened Attendance

  datatype LeaveStatus = PENDING | APPROVED | REJECTED

  datatype Request = Request(
    tenant: string, staff: string, fromDate: int, toDate: int, days: nat, status: LeaveStatus, decidedBy: string)

  datatype Outcome = Done | NotFound | BadRequest

  datatype State = State(requests: map<nat, Request>, register: Register)

  datatype Event =
    | Apply(id: nat, tenant: string, staff: string, fromDate: int, toDate: int)
    | Approve(id: nat, tenant: string, user: string)
    | Reject(id: nat, tenant: string, user: string)
    | Mark(tenant: string, staff: string, date: int, status: Status, overtime: real, user: string)

  /** The dates an approval writes, as keys of the register. */
  ghost function LeaveKeys(r: Request): set<(string, int)> {
    KeysOf(r.fromDate, r.toDate, r.staff)
  }

  /** An upsert keeps the rest of an existing entry. */
  function OnLeave(reg: Register, key: (string, int), tenant: string, user: string): Entry {
    if key in reg then reg[key].(status := ON_LEAVE, markedBy := user) else Entry(tenant, ON_LEAVE, 0.0, user)
  }

  /** The register after the upserts for the dates of a range. */
  function WithLeave(reg: Register, r: Request, user: string, last: int): Register
    decreases last - r.fromDate
  {
    if r.fromDate > last then reg
    else
      var before := WithLeave(reg, r, user, last - 1);
      if IsSunday(last) then before
      else before[(r.staff, last) := OnLeave(before, (r.staff, last), r.tenant, user)]
  }

  ghost predicate MarkedPresent(reg: Register, staff: string, fromDate: int, toDate: int) {
    DatesWith(reg, staff, fromDate, toDate, PRESENT) != {}
  }

  ghost predicate Pending(s: State, id: nat, tenant: string) {
    id in s.requests && s.requests[id].tenant == tenant && s.requests[id].status == PENDING
  }

  /** What a handler answers; `staff` maps each staff member to the tenant. */
  ghost function Answer(s: State, staff: map<string, string>, today: int, e: Event): Outcome {
    match e
    case Apply(_, tenant, member, fromDate, toDate) =>
      if !(member in staff && staff[member] == tenant) then NotFound
      else if fromDate > toDate || MarkedPresent(s.register, member, fromDate, toDate) then BadRequest
      else Done
    case Approve(id, tenant, _) => if Pending(s, id, tenant) then Done else NotFound
    case Reject(id, tenant, _) => if Pending(s, id, tenant) then Done else NotFound
    case Mark(tenant, member, date, _, _, _) =>
      if date > today || !(member in staff && staff[member] == tenant) then BadRequest else Done
  }

  /** The state a handler leaves behind. */
  ghost function After(s: State, staff: map<string, string>, today: int, e: Event): State {
    if Answer(s, staff, today, e) != Done then s
    else match e
      case Apply(id, tenant, member, fromDate, toDate) =>
        s.(requests := s.requests[id := Request(tenant, member, fromDate, toDate, |WorkingDates(fromDate, toDate)|,
            PENDING, "")])
      case Approve(id, _, user) =>
        var r := s.requests[id];
        State(s.requests[id := r.(status := APPROVED, decidedBy := user)], WithLeave(s.register, r, user, r.toDate))
      case Reject(id, _, user) =>
        s.(requests := s.requests[id := s.requests[id].(status := REJECTED, decidedBy := user)])
      case Mark(tenant, member, date, status, overtime, user) =>
        var kept := if (member, date) in s.register then s.register[(member, date)].tenant else tenant;
        s.(register := s.register[(member, date) := Entry(kept, status, overtime, user)])
  }

  class LeaveService {
    var requests: map<nat, Request>
    var register: Register
    const staff: map<string, string>

    ghost function Now(): State
      reads this
    {
      State(requests, register)
    }

    constructor (staff: map<string, string>)
      ensures Now() == State(map[], map[]) && this.staff == staff
    {
      requests, register := map[], map[];
      this.staff := staff;
    }

    /** The new request's id is fresh. */
    method Apply(id: nat, tenant: string, member: string, fromDate: int, toDate: int) returns (outcome: Outcome)
      requires id !in requests
      modifies this
      ensures outcome == Answer(old(Now()), staff, 0, Event.Apply(id, tenant, member, fromDate, toDate))
      ensures Now() == After(old(Now()), staff, 0, Event.Apply(id, tenant, member, fromDate, toDate))
    {
      if !(member in staff && staff[member] == tenant) {
        return NotFound;
      }
      if fromDate > toDate {
        return BadRequest;
      }
      var existingPresent := DatesWith(register, member, fromDate, toDate, PRESENT);
      if |existingPresent| > 0 {
        return BadRequest;
      }
      var days := CountDaysExcludingSundays(fromDate, toDate);
      requests := requests[id := Request(tenant, member, fromDate, toDate, days, PENDING, "")];
      outcome := Done;
    }

    method Approve(id: nat, tenant: string, user: string) returns (outcome: Outcome)
      modifies this
      ensures outcome == Answer(old(Now()), staff, 0, Event.Approve(id, tenant, user))
      ensures Now() == After(old(Now()), staff, 0, Event.Approve(id, tenant, user))
    {
      if !(id in requests && requests[id].tenant == tenant && requests[id].status == PENDING) {
        return NotFound;
      }
      var r := requests[id];
      requests := requests[id := r.(status := APPROVED, decidedBy := user)];
      MarkOnLeave(r, user);
      outcome := Done;
    }

    /** The date loop of an approval. */
    method MarkOnLeave(r: Request, user: string)
      modifies this`register
      ensures register == WithLeave(old(register), r, user, r.toDate)
    {
      var current := r.fromDate;
      while current <= r.toDate
        invariant r.fromDate <= current && (current <= r.toDate + 1 || current == r.fromDate)
        invariant register == WithLeave(old(register), r, user, current - 1)
      {
        if !IsSunday(current) {
          register := register[(r.staff, current) := OnLeave(register, (r.staff, current), r.tenant, user)];
        }
        current := current + 1;
      }
    }

    method Reject(id: nat, tenant: string, user: string) returns (outcome: Outcome)
      modifies this
      ensures outcome == Answer(old(Now()), staff, 0, Event.Reject(id, tenant, user))
      ensures Now() == After(old(Now()), staff, 0, Event.Reject(id, tenant, user))
    {
      if !(id in requests && requests[id].tenant == tenant && requests[id].status == PENDING) {
        return NotFound;
      }
      requests := requests[id := requests[id].(status := REJECTED, decidedBy := user)];
      outcome := Done;
    }

    method Mark(today: int, tenant: string, member: string, date: int, status: Status, overtime: real, user: string)
      returns (outcome: Outcome)
      modifies this
      ensures outcome == Answer(old(Now()), staff, today, Event.Mark(tenant, member, date, status, overtime, user))
      ensures Now() == After(old(Now()), staff, today, Event.Mark(tenant, member, date, status, overtime, user))
    {
      if date > today || !(member in staff && staff[member] == tenant) {
        return BadRequest;
      }
      var key := (member, date);
      var kept := if key in register then register[key].tenant else tenant;
      register := register[key := Entry(kept, status, overtime, user)];
      outcome := Done;
    }
  }

  /** The upserts write the working dates of the range and nothing else. */
  lemma {:induction false} WithLeaveWrites(reg: Register, r: Request, user: string, last: int)
    ensures var after := WithLeave(reg, r, user, last);
            forall key: (string, int) ::
              (if key.0 == r.staff && key.1 in WorkingDates(r.fromDate, last)
               then key in after && after[key] == OnLeave(reg, key, r.tenant, user)
               else (key in after <==> key in reg) && (key in reg ==> after[key] == reg[key]))
    decreases last - r.fromDate
  {
    if r.fromDate <= last {
      WithLeaveWrites(reg, r, user, last - 1);
      OneMoreDay(r.fromDate, last);
    }
  }

  // ----- Runs -----

  /** Every request counts the working dates of its range. */
  ghost predicate DaysRight(s: State) {
    forall id :: id in s.requests ==>
      && s.requests[id].fromDate <= s.requests[id].toDate
      && s.requests[id].days == |WorkingDates(s.requests[id].fromDate, s.requests[id].toDate)|
  }

  /** The states a run of handlers passes through; `today` moves as it likes. */
  ghost predicate IsRun(states: seq<State>, days: seq<int>, events: seq<Event>, staff: map<string, string>) {
    && |states| == |events| + 1 && |days| == |events|
    && forall k :: 0 <= k < |events| ==>
         && (events[k].Apply? ==> events[k].id !in states[k].requests)
         && states[k + 1] == After(states[k], staff, days[k], events[k])
  }

  /** A granted approval writes exactly the `days` working dates of the request, each as
      ON_LEAVE, and changes no other entry. */
  lemma {:induction false} ApprovalWritesItsDays(s: State, staff: map<string, string>, today: int, e: Event)
    requires DaysRight(s) && e.Approve? && Answer(s, staff, today, e) == Done
    ensures var r, t := s.requests[e.id], After(s, staff, today, e);
            && |LeaveKeys(r)| == r.days == WorkingDays(r.fromDate, r.toDate)
            && (forall key :: key in LeaveKeys(r) ==> key in t.register && t.register[key].status == ON_LEAVE)
            && (forall key :: key !in LeaveKeys(r) ==> (key in t.register <==> key in s.register))
            && (forall key :: key !in LeaveKeys(r) && key in s.register ==> t.register[key] == s.register[key])
  {
    var r := s.requests[e.id];
    KeysCountWorkingDays(r.fromDate, r.toDate, r.staff);
    WithLeaveWrites(s.register, r, e.user, r.toDate);
    WorkingDaysCountWorkingDates(r.fromDate, r.toDate);
  }

  lemma {:induction false} DaysStayRight(states: seq<State>, days: seq<int>, events: seq<Event>, 
          staff: map<string, string>, k: nat)
    requires IsRun(states, days, events, staff) && DaysRight(states[0]) && k < |states|
    ensures DaysRight(states[k])
  {
    if k > 0 {
      DaysStayRight(states, days, events, staff, k - 1);
      assert states[k] == After(states[k - 1], staff, days[k - 1], events[k - 1]);
    }
  }

  // ----- What the handlers leave behind -----

  /** An application is refused for a stranger, for an empty range, and for a range with a day on which
      the member was present; else it is granted. */
  lemma {:induction false} AppliedExactly(s: State, staff: map<string, string>, today: int, e: Event)
    requires e.Apply?
    ensures Answer(s, staff, today, e) ==
            if e.staff !in staff || staff[e.staff] != e.tenant then NotFound
            else if e.fromDate > e.toDate then BadRequest
            else if exists day :: e.fromDate <= day <= e.toDate && (e.staff, day) in s.register
                                  && s.register[(e.staff, day)].status == PRESENT then BadRequest
            else Done
  {
    var present := DatesWith(s.register, e.staff, e.fromDate, e.toDate, PRESENT);
    if day :| e.fromDate <= day <= e.toDate && (e.staff, day) in s.register
              && s.register[(e.staff, day)].status == PRESENT {
      assert day in present;
    } else {
      assert present == {};
    }
  }

  /** It then waits for a decision, as it was asked for, and nothing else changes. */
  lemma {:induction false} AppliedAsAsked(s: State, staff: map<string, string>, today: int, e: Event)
    requires e.Apply? && Answer(s, staff, today, e) == Done
    ensures var t := After(s, staff, today, e);
            && t.register == s.register && t.requests.Keys == s.requests.Keys + {e.id}
            && (forall id :: id in s.requests && id != e.id ==> t.requests[id] == s.requests[id])
            && var r := t.requests[e.id];
               && r.tenant == e.tenant && r.staff == e.staff && r.fromDate == e.fromDate && r.toDate == e.toDate
               && r.days == |WorkingDates(e.fromDate, e.toDate)| && r.status == PENDING
  {}

  /** A mark is refused for a date to come and for a stranger. */
  lemma {:induction false} MarkedExactly(s: State, staff: map<string, string>, today: int, e: Event)
    requires e.Mark?
    ensures Answer(s, staff, today, e) == Done <==>
            e.date <= today && e.staff in staff && staff[e.staff] == e.tenant
    ensures Answer(s, staff, today, e) in {Done, BadRequest}
  {}

  /** Who writes an entry of the register: a mark of that member and date, or the approval of a leave
      of that member over a working date. */
  ghost predicate Writes(s: State, staff: map<string, string>, today: int, e: Event, key: (string, int)) {
    && Answer(s, staff, today, e) == Done
    && ((e.Mark? && key == (e.staff, e.date)) || (e.Approve? && key in LeaveKeys(s.requests[e.id])))
  }

  /** The entry as it was written. */
  ghost predicate Written(x: Entry, e: Event) {
    if e.Mark? then x.status == e.status && x.overtime == e.overtime && x.markedBy == e.user
    else e.Approve? && x.status == ON_LEAVE && x.markedBy == e.user
  }

  lemma {:induction false} StepWrites(s: State, staff: map<string, string>, today: int, e: Event, key: (string, int),
          t: State)
    requires t == After(s, staff, today, e)
    ensures Writes(s, staff, today, e, key) ==>
              && key in t.register && Written(t.register[key], e)
              && t.register[key].tenant == (if key in s.register then s.register[key].tenant
                                            else if e.Mark? then e.tenant else s.requests[e.id].tenant)
              && (e.Approve? ==>
                    t.register[key].overtime == if key in s.register then s.register[key].overtime else 0.0)
    ensures !Writes(s, staff, today, e, key) ==>
              (key in t.register <==> key in s.register) && (key in s.register ==> t.register[key] == s.register[key])
  {
    if e.Approve? && Answer(s, staff, today, e) == Done {
      var r := s.requests[e.id];
      WithLeaveWrites(s.register, r, e.user, r.toDate);
      InKeys(r, key);
    }
  }

  lemma {:induction false} InKeys(r: Request, key: (string, int))
    ensures key in LeaveKeys(r) <==> key.0 == r.staff && key.1 in WorkingDates(r.fromDate, r.toDate)
  {}

  /** In every run, an entry of the register is what the last mark or approval wrote there. */
  lemma {:induction false} LastWriteStays(states: seq<State>, days: seq<int>, events: seq<Event>,
          staff: map<string, string>, key: (string, int), j: nat, k: nat)
    requires IsRun(states, days, events, staff) && j < k < |states|
    requires Writes(states[j], staff, days[j], events[j], key)
    requires forall n :: j < n < k ==> !Writes(states[n], staff, days[n], events[n], key)
    ensures key in states[k].register && Written(states[k].register[key], events[j])
    decreases k
  {
    StepWrites(states[k - 1], staff, days[k - 1], events[k - 1], key, states[k]);
    if j < k - 1 {
      LastWriteStays(states, days, events, staff, key, j, k - 1);
    }
  }

  /** And without one there is none. */
  lemma {:induction false} NeverWritten(states: seq<State>, days: seq<int>, events: seq<Event>,
          staff: map<string, string>, key: (string, int), k: nat)
    requires IsRun(states, days, events, staff) && k < |states| && states[0].register == map[]
    requires forall n :: 0 <= n < k ==> !Writes(states[n], staff, days[n], events[n], key)
    ensures key !in states[k].register
  {
    if k > 0 {
      NeverWritten(states, days, events, staff, key, k - 1);
      StepWrites(states[k - 1], staff, days[k - 1], events[k - 1], key, states[k]);
    } else {
    }
  }

  /** A decision is made on a pending request of the tenant, and on no other. */
  lemma {:induction false} DecidedExactly(s: State, staff: map<string, string>, today: int, e: Event)
    requires e.Approve? || e.Reject?
    ensures Answer(s, staff, today, e) ==
            if e.id in s.requests && s.requests[e.id].tenant == e.tenant && s.requests[e.id].status == PENDING
            then Done else NotFound
  {}

  lemma {:induction false} StepDecides(s: State, staff: map<string, string>, today: int, e: Event, id: nat, t: State)
    requires t == After(s, staff, today, e) && id in s.requests && (e.Apply? ==> e.id !in s.requests)
    ensures id in t.requests
    ensures t.requests[id] ==
            if Decides(s, staff, today, e, id)
            then s.requests[id].(status := if e.Approve? then APPROVED else REJECTED, decidedBy := e.user)
            else s.requests[id]
    ensures Decides(s, staff, today, e, id) ==> s.requests[id].status == PENDING
  {}

  /** In every run, a request that is approved or rejected has been, by the one who decided; and one
      on which nobody has decided is pending as it was asked for. */
  lemma {:induction false} StatusIsDecision(states: seq<State>, days: seq<int>, events: seq<Event>,
          staff: map<string, string>, id: nat, j: nat, k: nat)
    requires IsRun(states, days, events, staff) && j < k < |states|
    requires events[j].Apply? && events[j].id == id && Answer(states[j], staff, days[j], events[j]) == Done
    ensures id in states[k].requests
    ensures var r, asked := states[k].requests[id], states[j + 1].requests[id];
            && (r.status == PENDING ==>
                  r == asked && forall n :: j < n < k ==> !Decides(states[n], staff, days[n], events[n], id))
            && (r.status != PENDING ==>
                  exists n :: j < n < k && Decides(states[n], staff, days[n], events[n], id)
                    && r == asked.(status := if events[n].Approve? then APPROVED else REJECTED,
                                   decidedBy := events[n].user))
    decreases k
  {
    AppliedAsAsked(states[j], staff, days[j], events[j]);
    if j + 1 < k {
      StatusIsDecision(states, days, events, staff, id, j, k - 1);
      StepDecides(states[k - 1], staff, days[k - 1], events[k - 1], id, states[k]);
    }
  }

  ghost predicate Decides(s: State, staff: map<string, string>, today: int, e: Event, id: nat) {
    (e.Approve? || e.Reject?) && e.id == id && Answer(s, staff, today, e) == Done
  }

  lemma {:induction false} DecidedStays(states: seq<State>, days: seq<int>, events: seq<Event>, 
          staff: map<string, string>,
                                        id: nat, j: nat, k: nat)
    requires IsRun(states, days, events, staff) && j <= k < |states|
    requires id in states[j].requests && states[j].requests[id].status != PENDING
    ensures id in states[k].requests && states[k].requests[id] == states[j].requests[id]
    decreases k
  {
    if j < k {
      DecidedStays(states, days, events, staff, id, j, k - 1);
      assert states[k] == After(states[k - 1], staff, days[k - 1], events[k - 1]);
    }
  }

  /** In every run a request is approved or rejected at most once. */
  lemma {:induction false} DecidedAtMostOnce(states: seq<State>, days: seq<int>, events: seq<Event>,
          staff: map<string, string>, id: nat, j: nat, k: nat)
    requires IsRun(states, days, events, staff) && j < |events| && k < |events|
    requires Decides(states[j], staff, days[j], events[j], id) && Decides(states[k], staff, days[k], events[k], id)
    ensures j == k
  {
    if j < k {
      DecidedStays(states, days, events, staff, id, j + 1, k);
    } else if k < j {
      DecidedStays(states, days, events, staff, id, k + 1, j);
    }
  }

  lemma {:induction false} StepKeepsSundaysFree(s: State, staff: map<string, string>, today: int, e: Event)
    requires SundaysFree(s.register)
    requires e.Mark? && IsSunday(e.date) ==> e.status !in {PRESENT, HALF_DAY, ON_LEAVE}
    ensures SundaysFree(After(s, staff, today, e).register)
  {
    var t := After(s, staff, today, e);
    if e.Approve? && t != s {
      var r := s.requests[e.id];
      WithLeaveWrites(s.register, r, e.user, r.toDate);
    }
    forall member, day | IsSunday(day)
      ensures HalfDays(t.register, member, day) == 0
    {
      assert HalfDays(s.register, member, day) == 0;
    }
  }

  /** While nobody is marked as working on a Sunday, approvals keep Sundays free, so no
      member is ever paid for more days than the range has working days. */
  lemma {:induction false} PayableWithinWorkingDays(
      states: seq<State>, days: seq<int>, events: seq<Event>, staff: map<string, string>, k: nat)
    requires IsRun(states, days, events, staff) && k < |states| && states[0].register == map[]
    requires forall i :: 0 <= i < |events| && events[i].Mark? && IsSunday(events[i].date) ==>
               events[i].status !in {PRESENT, HALF_DAY, ON_LEAVE}
    ensures SundaysFree(states[k].register)
    ensures forall member, first, last ::
              PresentDays(states[k].register, member, first, last) + LeaveDays(states[k].register, member, first, last)
                  as real
              <= WorkingDays(first, last) as real
  {
    if k > 0 {
      PayableWithinWorkingDays(states, days, events, staff, k - 1);
      StepKeepsSundaysFree(states[k - 1], staff, days[k - 1], events[k - 1]);
    }
    forall member, first, last
      ensures PresentDays(states[k].register, member, first, last) + LeaveDays(states[k].register, member, first, last)
          as real
              <= WorkingDays(first, last) as real
    {
      SundaysFreeEarnsNothing(states[k].register, member, first, last);
      PayableWithinWorkingDaysExactly(states[k].register, member, first, last);
    }
  }
}
