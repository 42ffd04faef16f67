/** Payroll records: processing a month from the API or the worker, editing a draft, paying
    one or all. Each handler or job runs as one step. */
module PayrollLedger {
  import opened Options
  import opened Rounding
  import opened Slabs
  import opened PayrollCalculator
  import opened TakeHomePay
  import opened Calendar
  import Attendance

  datatype Staff = Staff(
    id: string, basicSalary: real, hra: real, allowances: real, pfEnabled: bool, esicEnabled: bool, tdsEnabled: bool)

  /** A month by its first and last date. */
  datatype Month = Month(first: int, last: int)

  datatype Status = DRAFT | PAID

  /** A stored record. The bonus and other deductions are stored to the paisa, the present
      days rounded down. */
  datatype Record = Record(
    tenant: string, staff: string, month: Month,
    workingDays: nat, presentDays: int, leaveDays: nat, overtimeHours: real,
    earnings: Earnings, bonus: int, grossSalary: int,
    deductions: Deductions, otherDeductions: int, netSalary: int,
    status: Status)

  /** Which implementation processes a month; the worker pays no bonus. */
  datatype Processor =
    | Api(settings: Settings, bonus: real, otherDeductions: real)
    | Worker

  datatype Event =
    | Process(processor: Processor, tenant: string, staffList: seq<Staff>, month: Month, register: Attendance.Register)
    | UpdateOne(settings: Settings, tenant: string, id: nat, staff: Staff, bonus: Option<real>,
        otherDeductions: Option<real>)
    | PayAll(tenant: string, month: Month)
    | PaySingle(tenant: string, id: nat)

  datatype Outcome = Done | NotFound | Forbidden | BadRequest

  /** Ids below `nextId` are taken. */
  datatype State = State(records: map<nat, Record>, nextId: nat)

  predicate UsableSettings(s: Settings) {
    s.workingHoursPerDay != 0.0
  }

  predicate Usable(p: Processor) {
    p.Api? ==> UsableSettings(p.settings)
  }

  function Overtime(reg: Attendance.Register, staff: string, first: int, last: int): real
    decreases last - first
  {
    if first > last then 0.0
    else Overtime(reg, staff, first, last - 1) + if (staff, last) in reg then reg[(staff, last)].overtime else 0.0
  }

  function InputFor(staff: Staff, workingDays: nat, presentDays: real, leaveDays: nat, overtimeHours: real,
                    bonus: real, otherDeductions: real): Input {
    Input(staff.basicSalary, staff.hra, staff.allowances, workingDays as real, presentDays, leaveDays as real,
          overtimeHours, staff.pfEnabled, staff.esicEnabled, staff.tdsEnabled, bonus, otherDeductions)
  }

  function MonthInput(processor: Processor, staff: Staff, month: Month, reg: Attendance.Register): Input {
    InputFor(staff, WorkingDays(month.first, month.last),
             Attendance.PresentDays(reg, staff.id, month.first, month.last),
             Attendance.LeaveDays(reg, staff.id, month.first, month.last),
             Overtime(reg, staff.id, month.first, month.last),
             if processor.Api? then processor.bonus else 0.0, if processor.Api? then processor.otherDeductions else 0.0)
  }

  function SlipBy(processor: Processor, i: Input): Payslip
    requires Usable(processor)
  {
    if processor.Api? then ApiPayslip(processor.settings, i) else WorkerPayslip(i)
  }

  function NewRecord(processor: Processor, tenant: string, staff: Staff, month: Month, reg: Attendance.Register): Record
    requires Usable(processor)
  {
    var i := MonthInput(processor, staff, month, reg);
    var slip := SlipBy(processor, i);
    Record(tenant, staff.id, month, WorkingDays(month.first, month.last), i.presentDays.Floor,
           Attendance.LeaveDays(reg, staff.id, month.first, month.last), i.overtimeHours,
           slip.earnings, HalfUp(i.bonus), slip.grossSalary, slip.deductions, HalfUp(i.otherDeductions),
           slip.netSalary, DRAFT)
  }

  predicate For(r: Record, tenant: string, staff: string, month: Month) {
    r.tenant == tenant && r.staff == staff && r.month == month
  }

  predicate Exists(records: map<nat, Record>, tenant: string, staff: string, month: Month) {
    exists id :: id in records && For(records[id], tenant, staff, month)
  }

  /** One turn of the staff loop: skip a member who has a record, else create one. */
  function ProcessedOne(s: State, processor: Processor, tenant: string, staff: Staff, month: Month,
          reg: Attendance.Register): State
    requires Usable(processor)
  {
    if Exists(s.records, tenant, staff.id, month) then s
    else State(s.records[s.nextId := NewRecord(processor, tenant, staff, month, reg)], s.nextId + 1)
  }

  /** The state after the staff list is processed in order. */
  function Processed(s: State, processor: Processor, tenant: string, list: seq<Staff>, month: Month,
          reg: Attendance.Register): State
    requires Usable(processor)
  {
    if list == [] then s
    else
      ProcessedOne(Processed(s, processor, tenant, list[..|list| - 1], month, reg), processor, tenant,
          list[|list| - 1], month, reg)
  }

  /** A draft recomputed from its stored days; the component fields keep their values. */
  function Recomputed(r: Record, settings: Settings, staff: Staff, bonus: real, otherDeductions: real): Record
    requires UsableSettings(settings)
  {
    var slip := ApiPayslip(settings,
        InputFor(staff, r.workingDays, r.presentDays as real, r.leaveDays, r.overtimeHours, bonus, otherDeductions));
    r.(bonus := HalfUp(bonus), otherDeductions := HalfUp(otherDeductions), grossSalary := slip.grossSalary,
       deductions := r.deductions.(total := slip.deductions.total), netSalary := slip.netSalary)
  }

  predicate Valid(e: Event) {
    match e
    case Process(processor, _, _, _, _) => Usable(processor)
    case UpdateOne(settings, _, _, _, _, _) => UsableSettings(settings)
    case _ => true
  }

  ghost predicate IsDraftOf(r: Record, tenant: string, month: Month) {
    r.tenant == tenant && r.month == month && r.status == DRAFT
  }

  ghost function Answer(s: State, e: Event): Outcome {
    match e
    case Process(processor, _, list, _, _) => if processor.Api? && list == [] then BadRequest else Done
    case UpdateOne(_, tenant, id, _, _, _) =>
      if !(id in s.records && s.records[id].tenant == tenant) then NotFound
      else if s.records[id].status != DRAFT then Forbidden else Done
    case PayAll(tenant, month) =>
      if exists id :: id in s.records && IsDraftOf(s.records[id], tenant, month) then Done else BadRequest
    case PaySingle(tenant, id) =>
      if !(id in s.records && s.records[id].tenant == tenant) then NotFound
      else if s.records[id].status == PAID then Forbidden else Done
  }

  ghost function After(s: State, e: Event): State
    requires Valid(e)
  {
    if Answer(s, e) != Done then s
    else match e
      case Process(processor, tenant, list, month, reg) => Processed(s, processor, tenant, list, month, reg)
      case UpdateOne(settings, _, id, staff, bonus, other) =>
        var r := s.records[id];
        s.(records := s.records[id := Recomputed(r, settings, staff, bonus.GetOr(r.bonus as real),
            other.GetOr(r.otherDeductions as real))])
      case PayAll(tenant, month) =>
        s.(records := map id | id in s.records ::
             if IsDraftOf(s.records[id], tenant, month) then s.records[id].(status := PAID) else s.records[id])
      case PaySingle(_, id) => s.(records := s.records[id := s.records[id].(status := PAID)])
  }

  class PayrollService {
    var records: map<nat, Record>
    var nextId: nat

    ghost function Now(): State
      reads this
    {
      State(records, nextId)
    }

    constructor ()
      ensures Now() == State(map[], 0)
    {
      records, nextId := map[], 0;
    }

    /** The staff loop of the API's `process` and of the worker's `payroll:process` job. */
    method Process(processor: Processor, tenant: string, list: seq<Staff>, month: Month,
            reg: Attendance.Register) returns (outcome: Outcome, created: nat)
      requires Usable(processor)
      modifies this
      ensures outcome == Answer(old(Now()), Event.Process(processor, tenant, list, month, reg))
      ensures Now() == After(old(Now()), Event.Process(processor, tenant, list, month, reg))
      ensures created == nextId - old(nextId)
    {
      created := 0;
      if processor.Api? && list == [] {
        return BadRequest, 0;
      }
      var workingDays := CountDaysExcludingSundays(month.first, month.last);
      for n := 0 to |list|
        invariant Now() == Processed(old(Now()), processor, tenant, list[..n], month, reg)
        invariant created == nextId - old(nextId)
      {
        var staff := list[n];
        assert list[..n + 1][..n] == list[..n];
        if exists id :: id in records && For(records[id], tenant, staff.id, month) {
          continue;
        }
        var present := Attendance.PresentDays(reg, staff.id, month.first, month.last);
        var onLeave := Attendance.LeaveDays(reg, staff.id, month.first, month.last);
        var overtime := Overtime(reg, staff.id, month.first, month.last);
        var bonus := if processor.Api? then processor.bonus else 0.0;
        var other := if processor.Api? then processor.otherDeductions else 0.0;
        var i := InputFor(staff, workingDays, present, onLeave, overtime, bonus, other);
        var slip;
        if processor.Api? {
          slip := Calculate(processor.settings, i);
        } else {
          slip := CalculatePayroll(i);
        }
        records := records[nextId := Record(tenant, staff.id, month, workingDays, present.Floor, onLeave, overtime,
                                            slip.earnings, HalfUp(bonus), slip.grossSalary, slip.deductions,
                                            HalfUp(other),
                                            slip.netSalary, DRAFT)];
        nextId := nextId + 1;
        created := created + 1;
      }
      assert list[..|list|] == list;
      outcome := Done;
    }

    method UpdateOne(settings: Settings, tenant: string, id: nat, staff: Staff, bonus: Option<real>,
            other: Option<real>) returns (outcome: Outcome)
      requires UsableSettings(settings)
      modifies this
      ensures outcome == Answer(old(Now()), Event.UpdateOne(settings, tenant, id, staff, bonus, other))
      ensures Now() == After(old(Now()), Event.UpdateOne(settings, tenant, id, staff, bonus, other))
    {
      if !(id in records && records[id].tenant == tenant) {
        return NotFound;
      }
      var r := records[id];
      if r.status != DRAFT {
        return Forbidden;
      }
      var newBonus := bonus.GetOr(r.bonus as real);
      var newOther := other.GetOr(r.otherDeductions as real);
      var slip := Calculate(settings,
          InputFor(staff, r.workingDays, r.presentDays as real, r.leaveDays, r.overtimeHours, newBonus, newOther));
      records := records[id := r.(bonus := HalfUp(newBonus), otherDeductions := HalfUp(newOther),
                                  grossSalary := slip.grossSalary, netSalary := slip.netSalary,
                                  deductions := r.deductions.(total := slip.deductions.total))];
      outcome := Done;
    }

    method PayAll(tenant: string, month: Month) returns (outcome: Outcome)
      modifies this
      ensures outcome == Answer(old(Now()), Event.PayAll(tenant, month))
      ensures Now() == After(old(Now()), Event.PayAll(tenant, month))
    {
      var drafts := set id | id in records && records[id].tenant == tenant && records[id].month == month
          && records[id].status == DRAFT;
      if drafts == {} {
        assert forall id :: id in records ==> (IsDraftOf(records[id], tenant, month) <==> id in drafts);
        return BadRequest;
      }
      var first :| first in drafts;
      assert first in records && IsDraftOf(records[first], tenant, month);
      records := map id | id in records :: if id in drafts then records[id].(status := PAID) else records[id];
      outcome := Done;
    }

    method PaySingle(tenant: string, id: nat) returns (outcome: Outcome)
      modifies this
      ensures outcome == Answer(old(Now()), Event.PaySingle(tenant, id))
      ensures Now() == After(old(Now()), Event.PaySingle(tenant, id))
    {
      if !(id in records && records[id].tenant == tenant) {
        return NotFound;
      }
      if records[id].status == PAID {
        return Forbidden;
      }
      records := records[id := records[id].(status := PAID)];
      outcome := Done;
    }
  }

  // ----- Runs -----

  /** At most one record per tenant, staff member and month, and net pay is gross pay less
      all deductions in each. */
  ghost predicate Consistent(s: State) {
    && (forall id :: id in s.records ==> id < s.nextId)
    && (forall i, j ::
          i in s.records && j in s.records
          && For(s.records[i], s.records[j].tenant, s.records[j].staff, s.records[j].month)
          ==> i == j)
    && (forall id :: id in s.records ==>
        s.records[id].netSalary == s.records[id].grossSalary - s.records[id].deductions.total)
  }

  ghost predicate IsRun(states: seq<State>, events: seq<Event>) {
    && |states| == |events| + 1
    && forall k :: 0 <= k < |events| ==> Valid(events[k]) && states[k + 1] == After(states[k], events[k])
  }

  lemma {:induction false} NewRecordIsDraft(processor: Processor, tenant: string, staff: Staff, month: Month,
          reg: Attendance.Register)
    requires Usable(processor)
    ensures var r := NewRecord(processor, tenant, staff, month, reg);
            For(r, tenant, staff.id, month) && r.status == DRAFT && r.netSalary == r.grossSalary - r.deductions.total
  {}

  /** `t` is `s` with drafts added under fresh ids. */
  ghost predicate AddsDrafts(s: State, t: State) {
    && s.nextId <= t.nextId
    && (forall id :: id in s.records ==> id in t.records && t.records[id] == s.records[id])
    && (forall id :: id in t.records && id !in s.records ==> s.nextId <= id && t.records[id].status == DRAFT)
  }

  lemma {:induction false} InsertKeepsConsistent(s: State, r: Record)
    requires Consistent(s) && !Exists(s.records, r.tenant, r.staff, r.month)
    requires r.status == DRAFT && r.netSalary == r.grossSalary - r.deductions.total
    ensures var t := State(s.records[s.nextId := r], s.nextId + 1);
            Consistent(t) && AddsDrafts(s, t) && Exists(t.records, r.tenant, r.staff, r.month)
  {
    var t := State(s.records[s.nextId := r], s.nextId + 1);
    assert For(t.records[s.nextId], r.tenant, r.staff, r.month);
  }

  lemma {:induction false} ProcessedOneAdds(s: State, processor: Processor, tenant: string, staff: Staff,
          month: Month, reg: Attendance.Register)
    requires Usable(processor) && Consistent(s)
    ensures var t := ProcessedOne(s, processor, tenant, staff, month, reg);
            Consistent(t) && AddsDrafts(s, t) && Exists(t.records, tenant, staff.id, month)
  {
    if !Exists(s.records, tenant, staff.id, month) {
      NewRecordIsDraft(processor, tenant, staff, month, reg);
      InsertKeepsConsistent(s, NewRecord(processor, tenant, staff, month, reg));
    }
  }

  lemma {:induction false} ExistsStays(s: State, t: State, tenant: string, staff: string, month: Month)
    requires AddsDrafts(s, t) && Exists(s.records, tenant, staff, month)
    ensures Exists(t.records, tenant, staff, month)
  {
    var id :| id in s.records && For(s.records[id], tenant, staff, month);
    assert id in t.records && For(t.records[id], tenant, staff, month);
  }

  /** Every record that `t` has and `s` has not is the new record of a listed member. */
  ghost predicate AddsListed(s: State, t: State, processor: Processor, tenant: string, list: seq<Staff>, month: Month,
                             reg: Attendance.Register)
    requires Usable(processor)
  {
    forall id :: id in t.records && id !in s.records ==>
      exists n :: 0 <= n < |list| && t.records[id] == NewRecord(processor, tenant, list[n], month, reg)
  }

  lemma {:induction false} OnlyListed(s: State, processor: Processor, tenant: string, list: seq<Staff>, month: Month,
          reg: Attendance.Register)
    requires Usable(processor)
    ensures AddsListed(s, Processed(s, processor, tenant, list, month, reg), processor, tenant, list, month, reg)
    decreases |list|
  {
    if list != [] {
      var before, last := list[..|list| - 1], list[|list| - 1];
      OnlyListed(s, processor, tenant, before, month, reg);
      var p := Processed(s, processor, tenant, before, month, reg);
      OneMoreListed(s, p, ProcessedOne(p, processor, tenant, last, month, reg), processor, tenant, list, month, reg);
    } else {
    }
  }

  lemma {:induction false} OneMoreListed(s: State, p: State, t: State, processor: Processor, tenant: string,
          list: seq<Staff>, month: Month, reg: Attendance.Register)
    requires Usable(processor) && list != []
    requires AddsListed(s, p, processor, tenant, list[..|list| - 1], month, reg)
    requires t == p
          || t.records == p.records[p.nextId := NewRecord(processor, tenant, list[|list| - 1], month, reg)]
    ensures AddsListed(s, t, processor, tenant, list, month, reg)
  {
    var before := list[..|list| - 1];
    forall id | id in t.records && id !in s.records
      ensures exists n :: 0 <= n < |list| && t.records[id] == NewRecord(processor, tenant, list[n], month, reg)
    {
      if id in p.records && t.records[id] == p.records[id] {
        var n :| 0 <= n < |before| && p.records[id] == NewRecord(processor, tenant, before[n], month, reg);
        assert list[n] == before[n];
      } else {
        assert t.records[id] == NewRecord(processor, tenant, list[|list| - 1], month, reg);
      }
    }
  }

  /** Processing adds drafts for the keys that had none, one for every listed member and for
      nobody else, and touches no existing record. */
  lemma {:induction false} ProcessedAdds(s: State, processor: Processor, tenant: string, list: seq<Staff>,
          month: Month, reg: Attendance.Register)
    requires Usable(processor) && Consistent(s)
    ensures var t := Processed(s, processor, tenant, list, month, reg);
            && Consistent(t) && AddsDrafts(s, t) && AddsListed(s, t, processor, tenant, list, month, reg)
            && (forall n :: 0 <= n < |list| ==> Exists(t.records, tenant, list[n].id, month))
  {
    OnlyListed(s, processor, tenant, list, month, reg);
    if list != [] {
      var before := list[..|list| - 1];
      ProcessedAdds(s, processor, tenant, before, month, reg);
      var p, t := Processed(s, processor, tenant, before, month, reg),
          Processed(s, processor, tenant, list, month, reg);
      ProcessedOneAdds(p, processor, tenant, list[|list| - 1], month, reg);
      AllExist(p, t, tenant, list, month);
    }
  }

  lemma {:induction false} AllExist(p: State, t: State, tenant: string, list: seq<Staff>, month: Month)
    requires list != [] && AddsDrafts(p, t) && Exists(t.records, tenant, list[|list| - 1].id, month)
    requires var before := list[..|list| - 1];
             forall n :: 0 <= n < |before| ==> Exists(p.records, tenant, before[n].id, month)
    ensures forall n :: 0 <= n < |list| ==> Exists(t.records, tenant, list[n].id, month)
  {
    var before := list[..|list| - 1];
    forall n | 0 <= n < |list| ensures Exists(t.records, tenant, list[n].id, month) {
      if n < |before| {
        assert before[n] == list[n];
        ExistsStays(p, t, tenant, list[n].id, month);
      }
    }
  }

  lemma {:induction false} StepConsistent(s: State, e: Event)
    requires Consistent(s) && Valid(e)
    ensures Consistent(After(s, e))
  {
    if e.Process? {
      ProcessedAdds(s, e.processor, e.tenant, e.staffList, e.month, e.register);
    }
  }

  /** Every run from an empty table keeps its records consistent. */
  lemma {:induction false} RunConsistent(states: seq<State>, events: seq<Event>, k: nat)
    requires IsRun(states, events) && states[0] == State(map[], 0) && k < |states|
    ensures Consistent(states[k])
  {
    if k > 0 {
      RunConsistent(states, events, k - 1);
      StepConsistent(states[k - 1], events[k - 1]);
    }
  }

  /** Once paid, a record never changes, and paying it again is refused. */
  lemma {:induction false} PaidIsFinal(states: seq<State>, events: seq<Event>, id: nat, j: nat, k: nat)
    requires IsRun(states, events) && states[0] == State(map[], 0) && j <= k < |states|
    requires id in states[j].records && states[j].records[id].status == PAID
    ensures id in states[k].records && states[k].records[id] == states[j].records[id]
    ensures forall tenant :: Answer(states[k], Event.PaySingle(tenant, id)) != Done
    decreases k
  {
    if j < k {
      PaidIsFinal(states, events, id, j, k - 1);
      RunConsistent(states, events, k - 1);
      var s, e := states[k - 1], events[k - 1];
      if e.Process? {
        ProcessedAdds(s, e.processor, e.tenant, e.staffList, e.month, e.register);
      }
    }
  }

  /** Processing a month again, by either service, for staff that already have a record
      creates nothing. */
  lemma {:induction false} ReprocessingCreatesNothing(s: State, processor: Processor, tenant: string,
          list: seq<Staff>, month: Month, reg: Attendance.Register)
    requires Usable(processor)
    requires forall n :: 0 <= n < |list| ==> Exists(s.records, tenant, list[n].id, month)
    ensures Processed(s, processor, tenant, list, month, reg) == s
  {
    if list != [] {
      ReprocessingCreatesNothing(s, processor, tenant, list[..|list| - 1], month, reg);
    }
  }

  lemma {:induction false} AllProcessed(s: State, e: Event, t: State)
    requires Consistent(s) && e.Process? && Usable(e.processor) && e.staffList != [] && t == After(s, e)
    ensures forall n :: 0 <= n < |e.staffList| ==> Exists(t.records, e.tenant, e.staffList[n].id, e.month)
  {
    ProcessedAdds(s, e.processor, e.tenant, e.staffList, e.month, e.register);
  }

  /** So the second of two runs of the job, from whichever service, is the identity. */
  lemma {:induction false} SecondRunIsIdentity(s: State, first: Event, second: Event)
    requires Consistent(s) && Valid(first) && Valid(second) && first.Process? && second.Process?
    requires first.tenant == second.tenant && first.month == second.month
    requires forall x :: x in second.staffList ==> exists y :: y in first.staffList && y.id == x.id
    ensures After(After(s, first), second) == After(s, first)
  {
    if first.staffList != [] && second.staffList != [] {
      var t := After(s, first);
      AllProcessed(s, first, t);
      forall n | 0 <= n < |second.staffList|
        ensures Exists(t.records, second.tenant, second.staffList[n].id, second.month)
      {
        var y :| y in first.staffList && y.id == second.staffList[n].id;
      }
      ReprocessingCreatesNothing(t, second.processor, second.tenant, second.staffList, second.month, second.register);
    }
  }

  // ----- What the handlers leave behind -----

  /** The overtime of a range is that of its parts, and of one date that of its entry. */
  lemma {:induction false} OvertimeAdds(reg: Attendance.Register, staff: string, first: int, middle: int, last: int)
    requires first <= middle + 1 <= last + 1
    ensures Overtime(reg, staff, first, last) ==
            Overtime(reg, staff, first, middle) + Overtime(reg, staff, middle + 1, last)
    decreases last - middle
  {
    if middle < last {
      OvertimeAdds(reg, staff, first, middle, last - 1);
    } else {
    }
  }

  lemma {:induction false} OvertimeOfDate(reg: Attendance.Register, staff: string, date: int)
    ensures Overtime(reg, staff, date, date) == if (staff, date) in reg then reg[(staff, date)].overtime else 0.0
  {
    assert Overtime(reg, staff, date, date - 1) == 0.0;
  }

  /** What a record is made from: the working dates of the month, the dates on which the member was
      present or half present, on leave, and the overtime. */
  ghost predicate MadeFrom(i: Input, staff: Staff, month: Month, reg: Attendance.Register, bonus: real, other: real) {
    i == Input(staff.basicSalary, staff.hra, staff.allowances, |WorkingDates(month.first, month.last)| as real,
               |Attendance.DatesWith(reg, staff.id, month.first, month.last, Attendance.PRESENT)| as real
               + |Attendance.DatesWith(reg, staff.id, month.first, month.last, Attendance.HALF_DAY)| as real / 2.0,
               |Attendance.DatesWith(reg, staff.id, month.first, month.last, Attendance.ON_LEAVE)| as real,
               Overtime(reg, staff.id, month.first, month.last),
               staff.pfEnabled, staff.esicEnabled, staff.tdsEnabled, bonus, other)
  }

  lemma {:induction false} InputInFigures(p: Processor, staff: Staff, month: Month, reg: Attendance.Register)
    ensures MadeFrom(MonthInput(p, staff, month, reg), staff, month, reg,
                     if p.Api? then p.bonus else 0.0, if p.Api? then p.otherDeductions else 0.0)
  {
    WorkingDaysCountWorkingDates(month.first, month.last);
  }

  /** After a month is processed, every listed member has a record of its own for it. */
  lemma {:induction false} EveryoneHasOne(s: State, e: Event, n: nat) returns (id: nat)
    requires Consistent(s) && Valid(e) && e.Process? && Answer(s, e) == Done && n < |e.staffList|
    ensures var t := After(s, e);
            && id in t.records && t.records[id].tenant == e.tenant && t.records[id].staff == e.staffList[n].id
            && t.records[id].month == e.month
  {
    ProcessedAdds(s, e.processor, e.tenant, e.staffList, e.month, e.register);
    id :| id in After(s, e).records && For(After(s, e).records[id], e.tenant, e.staffList[n].id, e.month);
  }

  /** In every run there is at most one record of a tenant's member for a month. */
  lemma {:induction false} OneRecordEach(states: seq<State>, events: seq<Event>, k: nat, i: nat, j: nat)
    requires IsRun(states, events) && states[0] == State(map[], 0) && k < |states|
    requires i in states[k].records && j in states[k].records
    requires var a, b := states[k].records[i], states[k].records[j];
             a.tenant == b.tenant && a.staff == b.staff && a.month == b.month
    ensures i == j
  {
    RunConsistent(states, events, k);
    var b := states[k].records[j];
    assert For(states[k].records[i], b.tenant, b.staff, b.month);
  }

  /** A new record keeps the figures of the payslip, with the present days rounded down. */
  lemma {:induction false} RecordInFigures(p: Processor, tenant: string, staff: Staff, month: Month,
          reg: Attendance.Register)
    requires Usable(p)
    ensures var r, i := NewRecord(p, tenant, staff, month, reg), MonthInput(p, staff, month, reg);
            var slip := if p.Api? then ApiPayslip(p.settings, i) else WorkerPayslip(i);
            && r.tenant == tenant && r.staff == staff.id && r.month == month && r.status == DRAFT
            && r.workingDays as real == i.workingDays && r.leaveDays as real == i.leaveDays
            && r.presentDays as real <= i.presentDays < r.presentDays as real + 1.0
            && r.overtimeHours == i.overtimeHours
            && r.earnings == slip.earnings && r.deductions == slip.deductions
            && r.grossSalary == slip.grossSalary && r.netSalary == slip.netSalary
            && r.bonus == HalfUp(i.bonus) && r.otherDeductions == HalfUp(i.otherDeductions)
  {}

  /** An edit calculates the draft again, by the API, from its stored days and the member's present
      salary, with the bonus and deductions it gives or else the stored ones. Gross pay, the sum of the
      deductions and net pay are kept, and so are bonus and other deductions; nothing else changes. */
  lemma {:induction false} EditInFigures(s: State, e: Event)
    requires e.UpdateOne? && Valid(e) && Answer(s, e) == Done
    ensures var r, staff := s.records[e.id], e.staff;
            var bonus, other := e.bonus.GetOr(r.bonus as real), e.otherDeductions.GetOr(r.otherDeductions as real);
            var slip := ApiPayslip(e.settings,
                Input(staff.basicSalary, staff.hra, staff.allowances, r.workingDays as real, r.presentDays as real,
                      r.leaveDays as real, r.overtimeHours, staff.pfEnabled, staff.esicEnabled, staff.tdsEnabled,
                      bonus, other));
            After(s, e) == s.(records := s.records[e.id := r.(
              bonus := HalfUp(bonus), otherDeductions := HalfUp(other), grossSalary := slip.grossSalary,
              deductions := r.deductions.(total := slip.deductions.total), netSalary := slip.netSalary)])
  {}

  /** Which events are accepted. */
  lemma {:induction false} AcceptedExactly(s: State, e: Event)
    ensures e.Process? ==> (Answer(s, e) == Done <==> e.processor.Worker? || e.staffList != [])
    ensures e.UpdateOne? ==>
              (Answer(s, e) == Done <==>
                 e.id in s.records && s.records[e.id].tenant == e.tenant && s.records[e.id].status == DRAFT)
    ensures e.PaySingle? ==>
              (Answer(s, e) == Done <==>
                 e.id in s.records && s.records[e.id].tenant == e.tenant && s.records[e.id].status == DRAFT)
    ensures e.PayAll? ==>
              (Answer(s, e) == Done <==>
                 exists id :: id in s.records && s.records[id].tenant == e.tenant && s.records[id].month == e.month
                   && s.records[id].status == DRAFT)
  {
    if e.PayAll? {
      if id :| id in s.records && s.records[id].tenant == e.tenant && s.records[id].month == e.month
               && s.records[id].status == DRAFT {
        assert IsDraftOf(s.records[id], e.tenant, e.month);
      }
    }
  }

  /** Who pays a record: its own payment, or that of its tenant's month. */
  ghost predicate Pays(s: State, e: Event, id: nat) {
    && id in s.records && s.records[id].status == DRAFT
    && ((e.PaySingle? && e.id == id && e.tenant == s.records[id].tenant)
        || (e.PayAll? && e.tenant == s.records[id].tenant && e.month == s.records[id].month))
  }

  lemma {:induction false} PaymentIsDone(s: State, e: Event, id: nat)
    requires Pays(s, e, id)
    ensures Answer(s, e) == Done
  {
    if e.PayAll? {
      assert IsDraftOf(s.records[id], e.tenant, e.month);
    }
  }

  lemma {:induction false} StepPays(s: State, e: Event, id: nat, t: State)
    requires Consistent(s) && Valid(e) && id in s.records && t == After(s, e)
    ensures id in t.records
    ensures Pays(s, e, id) ==> t.records[id] == s.records[id].(status := PAID)
    ensures !Pays(s, e, id) && !e.UpdateOne? ==> t.records[id] == s.records[id]
    ensures !Pays(s, e, id) ==> t.records[id].status == s.records[id].status
  {
    if Pays(s, e, id) {
      PaymentIsDone(s, e, id);
    }
    if e.Process? {
      ProcessedAdds(s, e.processor, e.tenant, e.staffList, e.month, e.register);
    }
  }

  /** In every run, a record is PAID if and only if it has been paid since it was made. */
  lemma {:induction false} PaidIfPaid(states: seq<State>, events: seq<Event>, id: nat, j: nat, k: nat)
    requires IsRun(states, events) && states[0] == State(map[], 0) && j < k < |states|
    requires id !in states[j].records && id in states[j + 1].records
    ensures id in states[k].records
    ensures states[k].records[id].status == PAID <==> exists n :: j < n < k && Pays(states[n], events[n], id)
    decreases k
  {
    RunConsistent(states, events, k - 1);
    if j + 1 < k {
      PaidIfPaid(states, events, id, j, k - 1);
      StepPays(states[k - 1], events[k - 1], id, states[k]);
    } else {
      NewIsDraft(states[j], events[j], id);
    }
  }

  lemma {:induction false} NewIsDraft(s: State, e: Event, id: nat)
    requires Consistent(s) && Valid(e) && id !in s.records && id in After(s, e).records
    ensures After(s, e).records[id].status == DRAFT
  {
    if e.Process? {
      ProcessedAdds(s, e.processor, e.tenant, e.staffList, e.month, e.register);
    }
  }

  // ----- What an edit that changes nothing does -----

  /** The settings that a service calculates with. */
  function SettingsOf(p: Processor): Settings {
    if p.Api? then p.settings else DEFAULTS
  }

  /** The edit of a new draft with its own bonus and deductions, while salary and settings are
      those of the processing. */
  function EditedAsIs(p: Processor, r: Record, staff: Staff): Record
    requires Usable(p)
  {
    Recomputed(r, SettingsOf(p), staff, r.bonus as real, r.otherDeductions as real)
  }

  /** The API, which edits, takes a paisa more TDS than the worker, which made the draft. */
  ghost predicate TakesPaisaMore(p: Processor, staff: Staff, gross: int) {
    p.Worker? && staff.tdsEnabled && TwelfthJustBelowHalf(gross)
  }

  lemma {:induction false} InputOfRecord(p: Processor, tenant: string, staff: Staff, month: Month,
          reg: Attendance.Register)
    requires Usable(p)
    ensures var r, i := NewRecord(p, tenant, staff, month, reg), MonthInput(p, staff, month, reg);
            InputFor(staff, r.workingDays, r.presentDays as real, r.leaveDays, r.overtimeHours, r.bonus as real,
                r.otherDeductions as real)
            == Stored(i).(presentDays := i.presentDays.Floor as real)
  {}

  lemma {:induction false} WithoutHalfDay(settings: Settings, i: Input)
    requires Sane(settings) && settings.esicWageCeiling < FIRST_DROP as real && NonNegative(i)
    ensures ApiPayslip(settings, Stored(i).(presentDays := i.presentDays.Floor as real)).netSalary
            <= ApiPayslip(settings, i).netSalary
    ensures i.presentDays == i.presentDays.Floor as real ==>
              ApiPayslip(settings, Stored(i).(presentDays := i.presentDays.Floor as real)) == ApiPayslip(settings, i)
  {
    StoredToThePaisa(settings, i);
    StoredInput(i);
    NetMonotone(settings, Stored(i).(presentDays := i.presentDays.Floor as real), Stored(i));
  }

  /** The API's payslip for what the draft was made from, against the payslip that made it. */
  lemma {:induction false} SlipsCompared(p: Processor, i: Input)
    requires Usable(p) && Sane(SettingsOf(p)) && NonNegative(i)
    ensures var a, r := ApiPayslip(SettingsOf(p), i), SlipBy(p, i);
            var more := if p.Worker? && i.tdsEnabled && TwelfthJustBelowHalf(r.grossSalary) then 1 else 0;
            && a.grossSalary == r.grossSalary == GrossFor(SettingsOf(p), i)
            && a.deductions.total == r.deductions.total + more && a.netSalary == r.netSalary - more
  {
    if p.Worker? {
      GrossMonotone(DEFAULTS, i, i);
      ImplementationsAgree(i);
    }
  }

  /** An edit that changes nothing never raises net pay. Without a half day it changes nothing at
      all, or takes the one paisa more that the API's TDS is above the worker's. */
  lemma {:induction false} EditWithoutChange(p: Processor, tenant: string, staff: Staff, month: Month,
          reg: Attendance.Register)
    requires Usable(p) && Sane(SettingsOf(p)) && SettingsOf(p).esicWageCeiling < FIRST_DROP as real
    requires NonNegative(MonthInput(p, staff, month, reg))
    ensures var r := NewRecord(p, tenant, staff, month, reg);
            var again := EditedAsIs(p, r, staff);
            var more := if TakesPaisaMore(p, staff, r.grossSalary) then 1 else 0;
            && again.netSalary <= r.netSalary
            && (Attendance.PresentDays(reg, staff.id, month.first, month.last) == r.presentDays as real ==>
                  again == r.(deductions := r.deductions.(total := r.deductions.total + more),
                              netSalary := r.netSalary - more))
  {
    var i := MonthInput(p, staff, month, reg);
    InputOfRecord(p, tenant, staff, month, reg);
    WithoutHalfDay(SettingsOf(p), i);
    SlipsCompared(p, i);
    HalfUpWhole(HalfUp(i.bonus));
    HalfUpWhole(HalfUp(i.otherDeductions));
  }

  /** The present days rounded down, as they are stored. */
  function Floored(i: Input): Input {
    i.(presentDays := i.presentDays.Floor as real)
  }

  ghost predicate SameComponents(i: Input) {
    && Prorated(i.basicSalary, Ratio(Floored(i))) == Prorated(i.basicSalary, Ratio(i))
    && Prorated(i.hra, Ratio(Floored(i))) == Prorated(i.hra, Ratio(i))
    && Prorated(i.allowances, Ratio(Floored(i))) == Prorated(i.allowances, Ratio(i))
  }

  /** Rounding the days down leaves gross pay alone only if it leaves every prorated component alone. */
  lemma {:induction false} SameGrossExactly(settings: Settings, i: Input)
    requires Sane(settings) && NonNegative(i)
    ensures GrossFor(settings, Floored(i)) == GrossFor(settings, i) <==> SameComponents(i)
  {
    var j := Floored(i);
    var d, e := EarningsOf(settings, j), EarningsOf(settings, i);
    RatioMonotone(j, i);
    ProratedMonotone(i.basicSalary, Ratio(j), Ratio(i));
    ProratedMonotone(i.hra, Ratio(j), Ratio(i));
    ProratedMonotone(i.allowances, Ratio(j), Ratio(i));
    EarningsNonNegative(settings, i);
    HalfUpShift(d.basic + d.hra + d.allowances + d.overtimePay, i.bonus);
    HalfUpShift(e.basic + e.hra + e.allowances + e.overtimePay, i.bonus);
  }

  /** Present days come in halves. */
  lemma {:induction false} HalfOrWhole(reg: Attendance.Register, staff: string, first: int, last: int)
    ensures var x := Attendance.PresentDays(reg, staff, first, last);
            x == x.Floor as real || x == x.Floor as real + 0.5
  {
    var m := 2 * |Attendance.DatesWith(reg, staff, first, last, Attendance.PRESENT)|
             + |Attendance.DatesWith(reg, staff, first, last, Attendance.HALF_DAY)|;
    var k := Halves(m);
    FloorOfHalf(m as real * 0.5, k);
    assert Attendance.PresentDays(reg, staff, first, last) == m as real * 0.5;
  }

  lemma {:induction false} Halves(m: nat) returns (k: nat)
    ensures m as real * 0.5 == k as real || m as real * 0.5 == k as real + 0.5
  {
    if m < 2 {
      k := 0;
    } else {
      k := Halves(m - 2);
      k := k + 1;
      assert m as real == (m - 2) as real + 2.0;
    }
  }

  lemma {:induction false} FloorOfHalf(x: real, k: int)
    requires x == k as real || x == k as real + 0.5
    ensures x.Floor == k
  {}

  lemma {:induction false} APaisaLess(amount: real, days: real, less: real, workingDays: real)
    requires 0.0 <= less && days == less + 0.5 && 0.0 < workingDays && amount >= 2.0 * workingDays
    ensures Prorated(amount, less / workingDays) < Prorated(amount, days / workingDays)
  {
    var x := less / workingDays;
    HalfOfDay(days, less, workingDays);
    assert days / workingDays == x + 0.5 / workingDays;
    HalfOfAmount(amount, workingDays);
    var p := amount * x;
    assert amount * (x + 0.5 / workingDays) == p + amount * (0.5 / workingDays);
    Scaling(0.0, less, workingDays);
    NotNegative(amount, x);
    HalfUpShift(1, p);
    HalfUpMonotone(1.0 + p, amount * (days / workingDays));
  }

  lemma {:induction false} NotNegative(a: real, b: real)
    requires a >= 0.0 && b >= 0.0
    ensures a * b >= 0.0
  {}

  lemma {:induction false} HalfOfDay(days: real, less: real, workingDays: real)
    requires days == less + 0.5 && 0.0 < workingDays
    ensures days / workingDays == less / workingDays + 0.5 / workingDays
  {}

  lemma {:induction false} HalfOfAmount(amount: real, workingDays: real)
    requires 0.0 < workingDays && amount >= 2.0 * workingDays
    ensures amount * (0.5 / workingDays) >= 1.0
  {
    var q := 0.5 / workingDays;
    assert q * workingDays == 0.5;
    NotNegative(q, amount - 2.0 * workingDays);
    assert q * (amount - 2.0 * workingDays) == q * amount - 2.0 * (q * workingDays);
  }

  lemma {:induction false} FlooredSlip(settings: Settings, i: Input)
    requires Sane(settings) && NonNegative(i)
    ensures var slip, whole := ApiPayslip(settings, Stored(i).(presentDays := i.presentDays.Floor as real)),
                ApiPayslip(settings, i);
            && slip.grossSalary == GrossFor(settings, Floored(i))
            && (slip.grossSalary == GrossFor(settings, i) ==>
                  slip.deductions == whole.deductions && slip.netSalary == whole.netSalary)
  {
    assert Stored(i).(presentDays := i.presentDays.Floor as real) == Stored(Floored(i));
    StoredToThePaisa(settings, Floored(i));
  }

  /** An edit that changes nothing leaves the record as it is if and only if rounding the present
      days down changes no prorated component and the API takes no paisa more. */
  lemma {:induction false} EditKeepsExactly(p: Processor, tenant: string, staff: Staff, month: Month,
          reg: Attendance.Register)
    requires Usable(p) && Sane(SettingsOf(p)) && NonNegative(MonthInput(p, staff, month, reg))
    ensures var r := NewRecord(p, tenant, staff, month, reg);
            EditedAsIs(p, r, staff) == r
            <==> SameComponents(MonthInput(p, staff, month, reg)) && !TakesPaisaMore(p, staff, r.grossSalary)
  {
    var i := MonthInput(p, staff, month, reg);
    InputOfRecord(p, tenant, staff, month, reg);
    FlooredSlip(SettingsOf(p), i);
    SlipsCompared(p, i);
    SameGrossExactly(SettingsOf(p), i);
    HalfUpWhole(HalfUp(i.bonus));
    HalfUpWhole(HalfUp(i.otherDeductions));
  }

  /** With a salary component of at least two paise a working day: exactly if there is no half day
      and the API takes no paisa more. */
  lemma {:induction false} HalfDayIsDroppedExactly(p: Processor, tenant: string, staff: Staff, month: Month,
          reg: Attendance.Register)
    requires Usable(p) && Sane(SettingsOf(p)) && NonNegative(MonthInput(p, staff, month, reg))
    requires WorkingDays(month.first, month.last) > 0
    requires var enough := 2.0 * WorkingDays(month.first, month.last) as real;
             staff.basicSalary >= enough || staff.hra >= enough || staff.allowances >= enough
    ensures var r := NewRecord(p, tenant, staff, month, reg);
            EditedAsIs(p, r, staff) == r
            <==> Attendance.PresentDays(reg, staff.id, month.first, month.last) == r.presentDays as real
                 && !TakesPaisaMore(p, staff, r.grossSalary)
  {
    EditKeepsExactly(p, tenant, staff, month, reg);
    HalfOrWhole(reg, staff.id, month.first, month.last);
    HalfDayCosts(MonthInput(p, staff, month, reg));
  }

  lemma {:induction false} HalfDayCosts(i: Input)
    requires NonNegative(i) && i.workingDays > 0.0
    requires i.presentDays == i.presentDays.Floor as real || i.presentDays == i.presentDays.Floor as real + 0.5
    requires i.basicSalary >= 2.0 * i.workingDays || i.hra >= 2.0 * i.workingDays || i.allowances >= 2.0 * i.workingDays
    ensures SameComponents(i) <==> i.presentDays == i.presentDays.Floor as real
  {
    if i.presentDays != i.presentDays.Floor as real {
      var days, less := i.presentDays + i.leaveDays, i.presentDays.Floor as real + i.leaveDays;
      if i.basicSalary >= 2.0 * i.workingDays {
        APaisaLess(i.basicSalary, days, less, i.workingDays);
      } else if i.hra >= 2.0 * i.workingDays {
        APaisaLess(i.hra, days, less, i.workingDays);
      } else {
        APaisaLess(i.allowances, days, less, i.workingDays);
      }
    } else {
    }
  }

  lemma {:induction false} NoOvertime(reg: Attendance.Register, staff: string, first: int, last: int)
    requires forall key :: key in reg ==> reg[key].overtime == 0.0
    ensures Overtime(reg, staff, first, last) == 0.0
    decreases last - first
  {
    if first <= last {
      NoOvertime(reg, staff, first, last - 1);
    } else {
    }
  }

  function OneHalfDay(staff: string, tenant: string, user: string): Attendance.Register {
    map[(staff, 1) := Attendance.Entry(tenant, Attendance.HALF_DAY, 0.0, user)]
  }

  lemma {:induction false} InputOfOneHalfDay(p: Processor, staff: Staff, tenant: string, user: string)
    requires p == Api(DEFAULTS, 0.0, 0.0) || p.Worker?
    ensures MonthInput(p, staff, Month(1, 30), OneHalfDay(staff.id, tenant, user)) ==
            InputFor(staff, 26, 0.5, 0, 0.0, 0.0, 0.0)
  {
    var reg := OneHalfDay(staff.id, tenant, user);
    NoOvertime(reg, staff.id, 1, 30);
    assert Attendance.DatesWith(reg, staff.id, 1, 30, Attendance.PRESENT) == {};
    assert Attendance.DatesWith(reg, staff.id, 1, 30, Attendance.ON_LEAVE) == {};
    assert Attendance.DatesWith(reg, staff.id, 1, 30, Attendance.HALF_DAY) == {1};
  }

  /** A member on Rs 26,000 who worked one half day of a month of 26 working days is paid Rs 500 by
      either service, and nothing after an edit that changes nothing. */
  lemma {:induction false} HalfDayLost(p: Processor, staff: Staff, tenant: string, user: string)
    requires p == Api(DEFAULTS, 0.0, 0.0) || p.Worker?
    requires staff == Staff(staff.id, 2600000.0, 0.0, 0.0, false, false, false)
    ensures var r := NewRecord(p, tenant, staff, Month(1, 30), OneHalfDay(staff.id, tenant, user));
            r.netSalary == 50000 && EditedAsIs(p, r, staff).netSalary == 0
  {
    InputOfOneHalfDay(p, staff, tenant, user);
    InputOfRecord(p, tenant, staff, Month(1, 30), OneHalfDay(staff.id, tenant, user));
    var i := InputFor(staff, 26, 0.5, 0, 0.0, 0.0, 0.0);
    assert Stored(i).(presentDays := i.presentDays.Floor as real) == InputFor(staff, 26, 0.0, 0, 0.0, 0.0, 0.0);
    SlipsCompared(p, i);
    PlainSlip(staff, 0.5);
    PlainSlip(staff, 0.0);
  }

  lemma {:induction false} PlainSlip(staff: Staff, presentDays: real)
    requires staff == Staff(staff.id, 2600000.0, 0.0, 0.0, false, false, false)
    ensures ApiPayslip(DEFAULTS, InputFor(staff, 26, presentDays, 0, 0.0, 0.0, 0.0)).netSalary ==
            HalfUp(2600000.0 * (presentDays / 26.0))
  {
    var i := InputFor(staff, 26, presentDays, 0, 0.0, 0.0, 0.0);
    assert Ratio(i) == presentDays / 26.0;
    var e := EarningsOf(DEFAULTS, i);
    assert e.hra == 0 && e.allowances == 0 && e.overtimePay == 0;
    HalfUpWhole(e.basic);
  }

  /** Present on every working date. */
  function FullyPresent(staff: string, month: Month, tenant: string, user: string): Attendance.Register {
    map day: int | month.first <= day <= month.last && !IsSunday(day) ::
      (staff, day) := Attendance.Entry(tenant, Attendance.PRESENT, 0.0, user)
  }

  lemma {:induction false} InputOfFullyPresent(staff: Staff, month: Month, tenant: string, user: string)
    ensures var days := WorkingDays(month.first, month.last);
            MonthInput(Worker, staff, month, FullyPresent(staff.id, month, tenant, user)) ==
            InputFor(staff, days, days as real, 0, 0.0, 0.0, 0.0)
  {
    var reg := FullyPresent(staff.id, month, tenant, user);
    NoOvertime(reg, staff.id, month.first, month.last);
    assert Attendance.DatesWith(reg, staff.id, month.first, month.last, Attendance.PRESENT) ==
           WorkingDates(month.first, month.last);
    assert Attendance.DatesWith(reg, staff.id, month.first, month.last, Attendance.ON_LEAVE) == {};
    assert Attendance.DatesWith(reg, staff.id, month.first, month.last, Attendance.HALF_DAY) == {};
    WorkingDaysCountWorkingDates(month.first, month.last);
  }

  lemma {:induction false} FullGross(staff: Staff, days: nat)
    requires staff == Staff(staff.id, 8333352.0, 0.0, 0.0, false, false, true) && days > 0
    ensures GrossFor(DEFAULTS, InputFor(staff, days, days as real, 0, 0.0, 0.0, 0.0)) == 8333352
  {
    var i := InputFor(staff, days, days as real, 0, 0.0, 0.0, 0.0);
    assert Ratio(i) == 1.0;
    HalfUpWhole(8333352);
    var e := EarningsOf(DEFAULTS, i);
    assert e == Earnings(8333352, 0, 0, 0);
    HalfUpWhole(8333352);
  }

  /** A member on Rs 83,333.52 with TDS who was there on every working date, processed by the
      worker: no half day, and yet an edit that changes nothing takes a paisa. */
  lemma {:induction false} PaisaLost(staff: Staff, month: Month, tenant: string, user: string)
    requires staff == Staff(staff.id, 8333352.0, 0.0, 0.0, false, false, true)
    requires WorkingDays(month.first, month.last) > 0
    ensures var reg := FullyPresent(staff.id, month, tenant, user);
            var r := NewRecord(Worker, tenant, staff, month, reg);
            && Attendance.PresentDays(reg, staff.id, month.first, month.last) == r.presentDays as real
            && EditedAsIs(Worker, r, staff).netSalary == r.netSalary - 1
  {
    var reg := FullyPresent(staff.id, month, tenant, user);
    InputOfFullyPresent(staff, month, tenant, user);
    FullGross(staff, WorkingDays(month.first, month.last));
    FirstExtraPaisa(8333352);
    EditWithoutChange(Worker, tenant, staff, month, reg);
  }

  function Stored(i: Input): Input {
    i.(bonus := HalfUp(i.bonus) as real, otherDeductions := HalfUp(i.otherDeductions) as real)
  }

  lemma {:induction false} StoredGross(settings: Settings, i: Input)
    requires Sane(settings) && NonNegative(i)
    ensures GrossFor(settings, Stored(i)) == GrossFor(settings, i)
        && EarningsOf(settings, Stored(i)) == EarningsOf(settings, i)
  {
    var e := EarningsOf(settings, i);
    EarningsNonNegative(settings, i);
    HalfUpWhole(HalfUp(i.bonus));
    HalfUpShift(e.basic + e.hra + e.allowances + e.overtimePay, i.bonus);
    HalfUpShift(e.basic + e.hra + e.allowances + e.overtimePay, HalfUp(i.bonus) as real);
  }

  lemma {:induction false} StoredDeductions(settings: Settings, i: Input, gross: nat, tds: nat)
    requires Sane(settings) && NonNegative(i)
    ensures DeductionsOf(settings, Stored(i), gross, tds) == DeductionsOf(settings, i, gross, tds)
  {
    var d := DeductionsOf(settings, i, gross, tds);
    HalfUpMonotone(0.0, PfWage(settings, i) * 0.12);
    HalfUpMonotone(0.0, gross as real * 0.0075);
    HalfUpWhole(HalfUp(i.otherDeductions));
    HalfUpShift(d.pfEmployee + d.esicEmployee + tds, i.otherDeductions);
    HalfUpShift(d.pfEmployee + d.esicEmployee + tds, HalfUp(i.otherDeductions) as real);
  }

  lemma {:induction false} StoredSlip(settings: Settings, i: Input, tds: nat)
    requires Sane(settings) && NonNegative(i) && GrossFor(settings, i) >= 0
    ensures SlipOf(settings, Stored(i), tds) == SlipOf(settings, i, tds)
  {
    StoredGross(settings, i);
    StoredDeductions(settings, i, GrossFor(settings, i), tds);
  }

  lemma {:induction false} StoredInput(i: Input)
    requires NonNegative(i)
    ensures NonNegative(Stored(i))
    ensures HalfUp(Stored(i).bonus) == HalfUp(i.bonus) && HalfUp(Stored(i).otherDeductions) == HalfUp(i.otherDeductions)
  {
    HalfUpWhole(HalfUp(i.bonus));
    HalfUpWhole(HalfUp(i.otherDeductions));
  }

  /** Storing the bonus and the other deductions to the paisa loses nothing of the payslip. */
  lemma {:induction false} StoredToThePaisa(settings: Settings, i: Input)
    requires Sane(settings) && NonNegative(i)
    ensures ApiPayslip(settings, Stored(i)) == ApiPayslip(settings, i)
  {
    GrossMonotone(settings, i, i);
    StoredGross(settings, i);
    var tds := ApiTds(i.tdsEnabled, GrossFor(settings, i));
    TdsNotNegative(i.tdsEnabled, GrossFor(settings, i));
    StoredSlip(settings, i, tds);
  }

  lemma {:induction false} TdsNotNegative(enabled: bool, gross: nat)
    ensures ApiTds(enabled, gross) >= 0
  {
    AnnualTaxExpanded(gross as real * 12.0);
  }

  // ----- Prorating within the month -----

  lemma {:induction false} RatioAtMostOne(i: Input)
    requires 0.0 <= i.presentDays + i.leaveDays <= i.workingDays
    ensures 0.0 <= Ratio(i) <= 1.0
  {
    if i.workingDays > 0.0 {
      QuotientAtMostOne(i.presentDays + i.leaveDays, i.workingDays);
    }
  }

  lemma {:induction false} QuotientAtMostOne(a: real, b: real)
    requires 0.0 <= a <= b && b > 0.0
    ensures 0.0 <= a / b <= 1.0
  {
    assert a / b * b == a;
  }

  /** Unless a member's Sundays earn more than the working days miss, no prorated component of the
      new record exceeds its full amount. */
  lemma {:induction false} ProratedAtMostFull(processor: Processor, tenant: string, staff: Staff, month: Month,
          reg: Attendance.Register)
    requires Usable(processor) && staff.basicSalary >= 0.0 && staff.hra >= 0.0 && staff.allowances >= 0.0
    requires Attendance.OnSundays(reg, staff.id, month.first, month.last)
             <= Attendance.Missed(reg, staff.id, month.first, month.last)
    ensures var e := NewRecord(processor, tenant, staff, month, reg).earnings;
            && 0 <= e.basic <= HalfUp(staff.basicSalary) && 0 <= e.hra <= HalfUp(staff.hra)
            && 0 <= e.allowances <= HalfUp(staff.allowances)
  {
    var i := MonthInput(processor, staff, month, reg);
    Attendance.PayableWithinWorkingDaysExactly(reg, staff.id, month.first, month.last);
    RatioAtMostOne(i);
    WithinFull(staff.basicSalary, Ratio(i));
    WithinFull(staff.hra, Ratio(i));
    WithinFull(staff.allowances, Ratio(i));
  }

  lemma {:induction false} WithinFull(amount: real, ratio: real)
    requires amount >= 0.0 && 0.0 <= ratio <= 1.0
    ensures 0 <= Prorated(amount, ratio) <= HalfUp(amount)
  {
    ProratedMonotone(amount, 0.0, ratio);
    ProratedMonotone(amount, ratio, 1.0);
    assert amount * 0.0 == 0.0 && amount * 1.0 == amount;
  }
}
