/** The attendance register, one entry per staff member and date, and the payable days the
    payroll services read from it. */
module Attendance {
  import opened Calendar

  datatype Status = PRESENT | ABSENT | HALF_DAY | HOLIDAY | WEEKLY_OFF | ON_LEAVE

  datatype Entry = Entry(tenant: string, status: Status, overtime: real, markedBy: string)

  /** Keyed by (staff, date), as the table's unique key. */
  type Register = map<(string, int), Entry>

  /** The dates of the range whose entry has the status. */
  function DatesWith(reg: Register, staff: string, first: int, last: int, status: Status): set<int> {
    set day | first <= day <= last && (staff, day) in reg && reg[(staff, day)].status == status
  }

  function PresentDays(reg: Register, staff: string, first: int, last: int): real {
    |DatesWith(reg, staff, first, last, PRESENT)| as real + |DatesWith(reg, staff, first, last, HALF_DAY)| as real * 0.5
  }

  function LeaveDays(reg: Register, staff: string, first: int, last: int): nat {
    |DatesWith(reg, staff, first, last, ON_LEAVE)|
  }

  /** What a date is worth, in half days. */
  function HalfDays(reg: Register, staff: string, day: int): (h: nat)
    ensures h <= 2
  {
    if (staff, day) !in reg then 0
    else match reg[(staff, day)].status
      case PRESENT => 2
      case ON_LEAVE => 2
      case HALF_DAY => 1
      case _ => 0
  }

  /** Half days missing from the working dates of the range. */
  function Missed(reg: Register, staff: string, first: int, last: int): nat
    decreases last - first
  {
    if first > last then 0
    else Missed(reg, staff, first, last - 1) + if IsSunday(last) then 0 else 2 - HalfDays(reg, staff, last)
  }

  /** Half days earned on the Sundays of the range. */
  function OnSundays(reg: Register, staff: string, first: int, last: int): nat
    decreases last - first
  {
    if first > last then 0
    else OnSundays(reg, staff, first, last - 1) + if IsSunday(last) then HalfDays(reg, staff, last) else 0
  }

  lemma {:induction false} OneMoreDate(reg: Register, staff: string, first: int, last: int, status: Status)
    requires first <= last
    ensures |DatesWith(reg, staff, first, last, status)| ==
            |DatesWith(reg, staff, first, last - 1, status)| +
            if (staff, last) in reg && reg[(staff, last)].status == status then 1 else 0
  {
    var before := DatesWith(reg, staff, first, last - 1, status);
    if (staff, last) in reg && reg[(staff, last)].status == status {
      assert DatesWith(reg, staff, first, last, status) == before + {last};
    } else {
      assert DatesWith(reg, staff, first, last, status) == before;
    }
  }

  /** Payable half days are those of the working days, less what was missed, plus what was
      earned on Sundays. */
  lemma {:induction false} PayableBalance(reg: Register, staff: string, first: int, last: int)
    ensures 2 * |DatesWith(reg, staff, first, last, PRESENT)| + |DatesWith(reg, staff, first, last, HALF_DAY)|
            + 2 * LeaveDays(reg, staff, first, last) + Missed(reg, staff, first, last)
            == 2 * WorkingDays(first, last) + OnSundays(reg, staff, first, last)
    decreases last - first
  {
    if first > last {
      forall status ensures DatesWith(reg, staff, first, last, status) == {} {}
    } else {
      PayableBalance(reg, staff, first, last - 1);
      OneMoreDay(first, last);
      OneMoreDate(reg, staff, first, last, PRESENT);
      OneMoreDate(reg, staff, first, last, HALF_DAY);
      OneMoreDate(reg, staff, first, last, ON_LEAVE);
    }
  }

  /** A member is paid for more days than the month has exactly when the Sundays earn more
      than the working days miss. */
  lemma {:induction false} PayableWithinWorkingDaysExactly(reg: Register, staff: string, first: int, last: int)
    ensures PresentDays(reg, staff, first, last) + LeaveDays(reg, staff, first, last) as real
            <= WorkingDays(first, last) as real
            <==> OnSundays(reg, staff, first, last) <= Missed(reg, staff, first, last)
  {
    PayableBalance(reg, staff, first, last);
  }

  /** No entry of the register earns anything on a Sunday. */
  ghost predicate SundaysFree(reg: Register) {
    forall staff, day :: IsSunday(day) ==> HalfDays(reg, staff, day) == 0
  }

  lemma {:induction false} SundaysFreeEarnsNothing(reg: Register, staff: string, first: int, last: int)
    requires SundaysFree(reg)
    ensures OnSundays(reg, staff, first, last) == 0
    decreases last - first
  {
    if first <= last {
      SundaysFreeEarnsNothing(reg, staff, first, last - 1);
    }
  }
}
