/** Dates as day numbers, counted from a Sunday. */
module Calendar {

  predicate IsSunday(day: int) {
    day % 7 == 0
  }

  /** The dates of a range that are not Sundays. */
  ghost function WorkingDates(first: int, last: int): set<int> {
    set day | first <= day <= last && !IsSunday(day)
  }

  /** How many they are: the length of the range less its Sundays, by floor division. */
  function WorkingDays(first: int, last: int): nat {
    if first > last then 0 else last - first + 1 - (last / 7 - (first - 1) / 7)
  }

  lemma {:induction false} OneMoreDay(first: int, last: int)
    requires first <= last
    ensures WorkingDays(first, last) == WorkingDays(first, last - 1) + if IsSunday(last) then 0 else 1
    ensures WorkingDates(first, last) == WorkingDates(first, last - 1) + if IsSunday(last) then {} else {last}
  {}

  lemma {:induction false} WorkingDaysCountWorkingDates(first: int, last: int)
    ensures |WorkingDates(first, last)| == WorkingDays(first, last)
    decreases last - first
  {
    if first > last {
      assert WorkingDates(first, last) == {};
    } else {
      OneMoreDay(first, last);
      WorkingDaysCountWorkingDates(first, last - 1);
    }
  }

  /** Counting a range in two parts counts every working day once. */
  lemma {:induction false} WorkingDaysAdditive(first: int, middle: int, last: int)
    requires first <= middle + 1 <= last + 1
    ensures WorkingDays(first, middle) + WorkingDays(middle + 1, last) == WorkingDays(first, last)
  {}

  /** The date loop shared by leave, attendance and both payroll services. */
  method CountDaysExcludingSundays(first: int, last: int) returns (count: nat)
    ensures count == |WorkingDates(first, last)| == WorkingDays(first, last)
  {
    count := 0;
    var current := first;
    while current <= last
      invariant current <= last + 1 || current == first
      invariant count == WorkingDays(first, current - 1)
    {
      OneMoreDay(first, current);
      if !IsSunday(current) {
        count := count + 1;
      }
      current := current + 1;
    }
    WorkingDaysCountWorkingDates(first, last);
  }

  /** The working dates of a range as keys of one staff member. */
  ghost function KeysOf(first: int, last: int, staff: string): set<(string, int)> {
    set day | day in WorkingDates(first, last) :: (staff, day)
  }

  lemma {:induction false} OneMoreKey(first: int, last: int, staff: string)
    requires first <= last
    ensures KeysOf(first, last, staff) ==
        KeysOf(first, last - 1, staff) + if IsSunday(last) then {} else {(staff, last)}
    ensures (staff, last) !in KeysOf(first, last - 1, staff)
  {
    OneMoreDay(first, last);
    forall key: (string, int)
      ensures key in KeysOf(first, last, staff) <==>
              key in KeysOf(first, last - 1, staff) + (if IsSunday(last) then {} else {(staff, last)})
    {
      assert key in KeysOf(first, last, staff) <==> key.0 == staff && key.1 in WorkingDates(first, last);
      assert key in KeysOf(first, last - 1, staff) <==> key.0 == staff && key.1 in WorkingDates(first, last - 1);
    }
  }

  lemma {:induction false} KeysCountWorkingDays(first: int, last: int, staff: string)
    ensures |KeysOf(first, last, staff)| == WorkingDays(first, last)
    decreases last - first
  {
    if first > last {
      assert KeysOf(first, last, staff) == {};
    } else {
      KeysCountWorkingDays(first, last - 1, staff);
      OneMoreDay(first, last);
      OneMoreKey(first, last, staff);
    }
  }
}
