/** What the limits depend on, from the history of a run: how many messages of a tenant went out
    today, and what was last counted on a phone's key. */
module RateHistory {
  import opened Digits
  import opened Options
  import opened RateLimit

  // ----- The tenant's day -----

  /** The day's counter is exactly `n`; without a message there is none. */
  ghost predicate CountsExactly(s: State, key: string, day: nat, n: nat) {
    if n == 0 then key !in s.store
    else key in s.store && s.store[key].value == n && s.store[key].expires.Some?
         && s.store[key].expires.value >= (day + 1) * DAY
  }

  lemma {:induction false} StepCountsExactly(s: State, e: Event, tenant: string, day: nat, n: nat, t: State)
    requires CountsExactly(s, TotalKey(tenant, day), day, n) && t == After(s, e)
    ensures CountsExactly(t, TotalKey(tenant, day), day, if Accepted(s, e, tenant, day) then n + 1 else n)
  {
    var key := TotalKey(tenant, day);
    if (e.Reminder? || e.Message?) && Answer(s, e) == Sent {
      KeysDiffer(e.tenant, FormatPhone(e.phone), tenant, day);
      KeysDiffer(e.tenant, FormatPhone(e.phone), e.tenant, s.now / DAY);
      if TotalKey(e.tenant, s.now / DAY) == key {
        TotalKeyInjective(e.tenant, s.now / DAY, tenant, day);
        WithinDay(s.now, day);
      }
    } else if e.Job? {
      KeysDiffer(e.tenant, e.phone, tenant, day);
    }
  }

  lemma {:induction false} DayCounted(states: seq<State>, events: seq<Event>, tenant: string, day: nat, k: nat)
    requires IsRun(states, events) && states[0] == START && k < |states|
    ensures CountsExactly(states[k], TotalKey(tenant, day), day, AcceptedIn(states, events, tenant, day, k))
  {
    if k > 0 {
      DayCounted(states, events, tenant, day, k - 1);
      StepCountsExactly(states[k - 1], events[k - 1], tenant, day, AcceptedIn(states, events, tenant, day, k - 1),
          states[k]);
    } else {
    }
  }

  /** In every run, the tenant's total is the number of its messages sent and recorded today. */
  lemma {:induction false} TotalIsCount(states: seq<State>, events: seq<Event>, tenant: string, k: nat)
    requires IsRun(states, events) && states[0] == START && k < |states|
    ensures TotalOf(states[k], tenant) == AcceptedIn(states, events, tenant, states[k].now / 86400000, k)
  {
    var day := states[k].now / DAY;
    DayCounted(states, events, tenant, day, k);
    WithinDay(states[k].now, day);
  }

  // ----- What was last counted on a phone's key -----

  /** When the key's time began, and how many reminders and jobs were counted since. */
  datatype Mark = Mark(since: nat, count: nat)

  /** A reminder that was sent starts the time of its key with one; a job counts on while the day
      lasts, and else starts it anew. */
  function Marked(mark: Option<Mark>, s: State, e: Event, key: string): Option<Mark> {
    if e.Reminder? && PhoneKey(e.tenant, FormatPhone(e.phone)) == key && Answer(s, e) == Sent then Some(Mark(s.now, 1))
    else if e.Job? && e.phone != "" && PhoneKey(e.tenant, e.phone) == key then
      if mark.Some? && s.now < mark.value.since + 86400000 then Some(mark.value.(count := mark.value.count + 1))
      else Some(Mark(s.now, 1))
    else mark
  }

  function MarkOf(states: seq<State>, events: seq<Event>, key: string, k: nat): Option<Mark>
    requires IsRun(states, events) && k < |states|
    decreases k
  {
    if k == 0 then None else Marked(MarkOf(states, events, key, k - 1), states[k - 1], events[k - 1], key)
  }

  ghost predicate Shows(s: State, key: string, mark: Option<Mark>) {
    match mark
    case None => key !in s.store
    case Some(m) => key in s.store && m.count >= 1 && s.store[key] == Cell(m.count, Some(m.since + DAY))
  }

  lemma {:induction false} StepMarks(s: State, e: Event, t: string, p: string, mark: Option<Mark>, after: State)
    requires Shows(s, PhoneKey(t, p), mark) && after == After(s, e)
    ensures Shows(after, PhoneKey(t, p), Marked(mark, s, e, PhoneKey(t, p)))
  {
    if e.Reminder? || e.Message? {
      KeysDiffer(t, p, e.tenant, s.now / DAY);
    }
  }

  lemma {:induction false} KeyShowsMark(states: seq<State>, events: seq<Event>, t: string, p: string, k: nat)
    requires IsRun(states, events) && states[0] == START && k < |states|
    ensures Shows(states[k], PhoneKey(t, p), MarkOf(states, events, PhoneKey(t, p), k))
  {
    if k > 0 {
      KeyShowsMark(states, events, t, p, k - 1);
      StepMarks(states[k - 1], events[k - 1], t, p, MarkOf(states, events, PhoneKey(t, p), k - 1), states[k]);
    } else {
    }
  }

  /** What the key counts now: nothing once a day has passed. */
  function CountNow(mark: Option<Mark>, now: nat): nat {
    if mark.Some? && now < mark.value.since + 86400000 then mark.value.count else 0
  }

  lemma {:induction false} PhoneIsCount(states: seq<State>, events: seq<Event>, t: string, p: string, k: nat)
    requires IsRun(states, events) && states[0] == START && k < |states|
    ensures PhoneOf(states[k], t, p) == CountNow(MarkOf(states, events, PhoneKey(t, p), k), states[k].now)
  {
    KeyShowsMark(states, events, t, p, k);
  }

  // ----- What is answered -----

  /** In every run a reminder is refused for want of digits, after 1000 messages of the tenant today,
      or while something counts on the phone's key; else it is sent as far as the provider and the
      record allow. */
  lemma {:induction false} ReminderAnswered(states: seq<State>, events: seq<Event>, t: string, phone: string,
          delivery: Delivery, k: nat)
    requires IsRun(states, events) && states[0] == START && k < |states|
    ensures var today := AcceptedIn(states, events, t, states[k].now / 86400000, k);
            var counted := CountNow(MarkOf(states, events, PhoneKey(t, FormatPhone(phone)), k), states[k].now);
            Answer(states[k], Reminder(t, phone, delivery)) ==
            if FormatPhone(phone) == "" then Failed
            else if today >= 1000 then TenantLimited
            else if counted > 0 then PhoneLimited
            else if delivery == Recorded then Sent else Failed
  {
    TotalIsCount(states, events, t, k);
    PhoneIsCount(states, events, t, FormatPhone(phone), k);
  }

  /** Any other message of the API is refused without digits or after 1000 of the tenant today. */
  lemma {:induction false} MessageAnswered(states: seq<State>, events: seq<Event>, t: string, phone: string,
          delivery: Delivery, k: nat)
    requires IsRun(states, events) && states[0] == START && k < |states|
    ensures var today := AcceptedIn(states, events, t, states[k].now / 86400000, k);
            Answer(states[k], Message(t, phone, delivery)) ==
            if FormatPhone(phone) == "" then Failed
            else if today >= 1000 then TenantLimited
            else if delivery == Recorded then Sent else Failed
  {
    TotalIsCount(states, events, t, k);
  }

  /** A job is refused without a phone, or once 250 are counted on the phone as it was given. */
  lemma {:induction false} JobAnswered(states: seq<State>, events: seq<Event>, t: string, phone: string,
          delivered: bool, k: nat)
    requires IsRun(states, events) && states[0] == START && k < |states|
    ensures var counted := CountNow(MarkOf(states, events, PhoneKey(t, phone), k), states[k].now);
            Answer(states[k], Job(t, phone, delivered)) ==
            if phone == "" then Failed
            else if counted >= 250 then PhoneLimited
            else if delivered then Sent else Failed
  {
    PhoneIsCount(states, events, t, phone, k);
  }

  // ----- Phones -----

  /** The digits of a phone, one character after another. */
  lemma {:induction false} OneMoreChar(c: char, s: string)
    ensures OnlyDigits([c] + s) == (if '0' <= c <= '9' then [c] else "") + OnlyDigits(s) && OnlyDigits("") == ""
  {
    assert ([c] + s)[1..] == s;
  }

  /** A phone is sent to as its digits, with 91 before them if there are ten. */
  lemma {:induction false} PhoneInFigures(phone: string)
    ensures IsDigits(OnlyDigits(phone))
    ensures FormatPhone(phone) == (if |OnlyDigits(phone)| == 10 then "91" else "") + OnlyDigits(phone)
    decreases |phone|
  {
    if phone != "" {
      PhoneInFigures(phone[1..]);
    }
    assert "" + OnlyDigits(phone) == OnlyDigits(phone);
  }
}
