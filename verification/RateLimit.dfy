/** WhatsApp rate limits: Redis counters shared by the API and the worker. Time is in
    milliseconds; a handler or job runs as one step, and a bulk run as one step per invoice, with
    time and other requests and jobs in between. */
module RateLimit {
  import opened Digits
  import opened Options

  const DAY := 86400000
  const TENANT_LIMIT := 1000
  const JOB_LIMIT := 250

  // ----- Redis -----

  datatype Cell = Cell(value: nat, expires: Option<nat>)

  type Store = map<string, Cell>

  predicate Live(store: Store, now: nat, key: string) {
    key in store && (store[key].expires.Some? ==> now < store[key].expires.value)
  }

  function ValueOf(store: Store, now: nat, key: string): nat {
    if Live(store, now, key) then store[key].value else 0
  }

  /** INCR keeps the time to live of a live key; a new key has none. */
  function Incr(store: Store, now: nat, key: string): Store {
    store[key := if Live(store, now, key) then Cell(store[key].value + 1, store[key].expires) else Cell(1, None)]
  }

  function Expire(store: Store, key: string, at: nat): Store
    requires key in store
  {
    store[key := Cell(store[key].value, Some(at))]
  }

  // ----- Keys and phones -----

  function PhoneKey(tenant: string, phone: string): string {
    "wa:rate:" + tenant + ":" + phone + ":daily"
  }

  /** The date is printed as its day number. */
  function TotalKey(tenant: string, day: nat): string {
    "wa:rate:" + tenant + ":total:" + Decimal(day)
  }

  function OnlyDigits(s: string): string {
    if s == "" then ""
    else (if '0' <= s[0] <= '9' then [s[0]] else "") + OnlyDigits(s[1..])
  }

  function FormatPhone(phone: string): string {
    var cleaned := OnlyDigits(phone);
    if |cleaned| == 10 then "91" + cleaned else cleaned
  }

  // ----- The services -----

  datatype State = State(store: Store, now: nat)

  /** How a send of the API ends: refused by the provider, taken by it and recorded, or taken by it
      before its answer is lost or writing the record fails. */
  datatype Delivery = Refused | Recorded | Unrecorded

  /** What is sent, and how that ends: an API reminder, another API message, or a worker's job,
      which uses the phone as it was given. */
  datatype Event =
    | Reminder(tenant: string, phone: string, delivery: Delivery)
    | Message(tenant: string, phone: string, delivery: Delivery)
    | Job(tenant: string, phone: string, delivered: bool)
    | Wait(time: nat)

  datatype Outcome = Sent | Failed | TenantLimited | PhoneLimited | Passed

  const START := State(map[], 0)

  function TotalOf(s: State, tenant: string): nat {
    ValueOf(s.store, s.now, TotalKey(tenant, s.now / DAY))
  }

  function PhoneOf(s: State, tenant: string, phone: string): nat {
    ValueOf(s.store, s.now, PhoneKey(tenant, phone))
  }

  function Answer(s: State, e: Event): Outcome {
    match e
    case Reminder(tenant, phone, delivery) =>
      if FormatPhone(phone) == "" then Failed
      else if TotalOf(s, tenant) >= TENANT_LIMIT then TenantLimited
      else if PhoneOf(s, tenant, FormatPhone(phone)) >= 1 then PhoneLimited
      else if delivery != Recorded then Failed
      else Sent
    case Message(tenant, phone, delivery) =>
      if FormatPhone(phone) == "" then Failed
      else if TotalOf(s, tenant) >= TENANT_LIMIT then TenantLimited
      else if delivery != Recorded then Failed
      else Sent
    case Job(tenant, phone, delivered) =>
      if phone == "" then Failed
      else if PhoneOf(s, tenant, phone) + 1 > JOB_LIMIT then PhoneLimited else if delivered then Sent else Failed
    case Wait(_) => Passed
  }

  /** The provider takes the message, whatever becomes of its record. */
  predicate Reaches(s: State, e: Event) {
    match e
    case Reminder(tenant, phone, delivery) =>
      FormatPhone(phone) != "" && TotalOf(s, tenant) < TENANT_LIMIT && PhoneOf(s, tenant, FormatPhone(phone)) < 1
      && delivery != Refused
    case Message(tenant, phone, delivery) =>
      FormatPhone(phone) != "" && TotalOf(s, tenant) < TENANT_LIMIT && delivery != Refused
    case Job(_, _, _) => Answer(s, e) == Sent
    case Wait(_) => false
  }

  function Counted(s: State, tenant: string): Store {
    Expire(Incr(s.store, s.now, TotalKey(tenant, s.now / DAY)), TotalKey(tenant, s.now / DAY), s.now + 2 * DAY)
  }

  function JobCounted(s: State, key: string): Store {
    var store := Incr(s.store, s.now, key);
    if store[key].value == 1 then Expire(store, key, s.now + DAY) else store
  }

  function After(s: State, e: Event): State {
    match e
    case Reminder(tenant, phone, _) =>
      if Answer(s, e) != Sent then s
      else s.(store := Counted(s, tenant)[PhoneKey(tenant, FormatPhone(phone)) := Cell(1, Some(s.now + DAY))])
    case Message(tenant, _, _) => if Answer(s, e) != Sent then s else s.(store := Counted(s, tenant))
    case Job(tenant, phone, _) => if phone == "" then s else s.(store := JobCounted(s, PhoneKey(tenant, phone)))
    case Wait(time) => s.(now := s.now + time)
  }

  function AfterAll(s: State, events: seq<Event>): State {
    if events == [] then s else After(AfterAll(s, events[..|events| - 1]), events[|events| - 1])
  }

  /** An invoice of a bulk run: what else happens before its turn (time passes while customers are
      looked up and the provider answers, other requests and jobs run), and the customer's phone,
      if there is a customer with one. */
  datatype Recipient = Recipient(meanwhile: seq<Event>, phone: Option<string>, delivery: Delivery)

  datatype Verdict = WasSent | WasSkipped | WasFailed

  /** What a bulk run notes about an invoice, and when. */
  datatype Detail = Detail(verdict: Verdict, key: string, at: nat)

  datatype Progress = Progress(state: State, details: seq<Detail>)

  function BulkOne(s: State, tenant: string, r: Recipient): (State, Detail) {
    OwnTurn(AfterAll(s, r.meanwhile), tenant, r)
  }

  function OwnTurn(s: State, tenant: string, r: Recipient): (State, Detail) {
    if r.phone == None || r.phone.value == "" then (s, Detail(WasSkipped, "", s.now))
    else
      var key := PhoneKey(tenant, FormatPhone(r.phone.value));
      if Live(s.store, s.now, key) then (s, Detail(WasSkipped, key, s.now))
      else
        var e := Reminder(tenant, r.phone.value, r.delivery);
        if Answer(s, e) == Sent then (After(After(s, e), Wait(500)), Detail(WasSent, key, s.now))
        else (s, Detail(WasFailed, key, s.now))
  }

  function Bulk(s: State, tenant: string, list: seq<Recipient>): Progress {
    if list == [] then Progress(s, [])
    else
      var before := Bulk(s, tenant, list[..|list| - 1]);
      var (t, detail) := BulkOne(before.state, tenant, list[|list| - 1]);
      Progress(t, before.details + [detail])
  }

  function CountOf(details: seq<Detail>, v: Verdict): nat {
    if details == [] then 0
    else CountOf(details[..|details| - 1], v) + if details[|details| - 1].verdict == v then 1 else 0
  }

  function PlacesOf(details: seq<Detail>, v: Verdict): set<nat> {
    set n | 0 <= n < |details| && details[n].verdict == v
  }

  lemma {:induction false} OnePlaceMore(before: seq<Detail>, last: Detail, v: Verdict)
    ensures PlacesOf(before + [last], v) == PlacesOf(before, v) + if last.verdict == v then {|before|} else {}
  {}

  /** The count is the number of invoices noted like this. */
  lemma {:induction false} CountIsNumber(details: seq<Detail>, v: Verdict)
    ensures CountOf(details, v) == |PlacesOf(details, v)|
    decreases |details|
  {
    if details != [] {
      var before, last := details[..|details| - 1], details[|details| - 1];
      CountIsNumber(before, v);
      OnePlaceMore(before, last, v);
      assert details == before + [last];
    } else {
      assert PlacesOf(details, v) == {};
    }
  }

  class WhatsAppService {
    var store: Store
    var now: nat

    ghost function Now(): State
      reads this
    {
      State(store, now)
    }

    constructor ()
      ensures Now() == START
    {
      store, now := map[], 0;
    }

    method Get(key: string) returns (value: Option<nat>)
      ensures value == if Live(store, now, key) then Some(store[key].value) else None
    {
      value := None;
      if key in store && (store[key].expires.Some? ==> now < store[key].expires.value) {
        value := Some(store[key].value);
      }
    }

    method CheckRateLimits(tenant: string, phone: string, isReminder: bool) returns (refused: Option<Outcome>)
      ensures refused == if TotalOf(Now(), tenant) >= TENANT_LIMIT then Some(TenantLimited)
                         else if isReminder && PhoneOf(Now(), tenant, phone) >= 1 then Some(PhoneLimited) else None
    {
      var total := Get(TotalKey(tenant, now / DAY));
      if total.Some? && total.value >= TENANT_LIMIT {
        return Some(TenantLimited);
      }
      if isReminder {
        var count := Get(PhoneKey(tenant, phone));
        if count.Some? && count.value >= 1 {
          return Some(PhoneLimited);
        }
      }
      refused := None;
    }

    method SendReminder(tenant: string, phone: string, delivery: Delivery) returns (outcome: Outcome)
      modifies `store
      ensures outcome == Answer(old(Now()), Reminder(tenant, phone, delivery))
      ensures Now() == After(old(Now()), Reminder(tenant, phone, delivery))
    {
      var to := FormatPhone(phone);
      if to == "" {
        return Failed;
      }
      var refused := CheckRateLimits(tenant, to, true);
      if refused.Some? {
        return refused.value;
      }
      if delivery != Recorded {
        return Failed;
      }
      var totalKey := TotalKey(tenant, now / DAY);
      store := Incr(store, now, totalKey);
      store := Expire(store, totalKey, now + 2 * DAY);
      store := store[PhoneKey(tenant, to) := Cell(1, Some(now + DAY))];
      outcome := Sent;
    }

    /** Any other message of the API, such as an invoice: only the tenant's total counts. */
    method SendMessage(tenant: string, phone: string, delivery: Delivery) returns (outcome: Outcome)
      modifies `store
      ensures outcome == Answer(old(Now()), Message(tenant, phone, delivery))
      ensures Now() == After(old(Now()), Message(tenant, phone, delivery))
    {
      var to := FormatPhone(phone);
      if to == "" {
        return Failed;
      }
      var refused := CheckRateLimits(tenant, to, false);
      if refused.Some? {
        return refused.value;
      }
      if delivery != Recorded {
        return Failed;
      }
      var totalKey := TotalKey(tenant, now / DAY);
      store := Incr(store, now, totalKey);
      store := Expire(store, totalKey, now + 2 * DAY);
      outcome := Sent;
    }

    method ProcessJob(tenant: string, phone: string, delivered: bool) returns (outcome: Outcome)
      modifies `store
      ensures outcome == Answer(old(Now()), Job(tenant, phone, delivered))
      ensures Now() == After(old(Now()), Job(tenant, phone, delivered))
    {
      if phone == "" {
        return Failed;
      }
      var key := PhoneKey(tenant, phone);
      store := Incr(store, now, key);
      var currentCount := store[key].value;
      if currentCount == 1 {
        store := Expire(store, key, now + DAY);
      }
      if currentCount > JOB_LIMIT {
        return PhoneLimited;
      }
      outcome := if delivered then Sent else Failed;
    }

    method SendBulkReminders(tenant: string, list: seq<Recipient>) returns (sent: nat, skipped: nat, failed: nat,
            details: seq<Detail>)
      modifies this
      ensures Progress(Now(), details) == Bulk(old(Now()), tenant, list)
      ensures sent == CountOf(details, WasSent) && skipped == CountOf(details, WasSkipped)
          && failed == CountOf(details, WasFailed)
      ensures sent + skipped + failed == |list|
    {
      sent, skipped, failed, details := 0, 0, 0, [];
      for n := 0 to |list|
        invariant Progress(Now(), details) == Bulk(old(Now()), tenant, list[..n])
        invariant sent == CountOf(details, WasSent) && skipped == CountOf(details, WasSkipped)
            && failed == CountOf(details, WasFailed)
        invariant sent + skipped + failed == n
      {
        assert list[..n + 1][..n] == list[..n];
        var detail := BulkTurn(tenant, list[n]);
        assert (details + [detail])[..|details|] == details;
        details := details + [detail];
        match detail.verdict
        case WasSent => sent := sent + 1;
        case WasSkipped => skipped := skipped + 1;
        case WasFailed => failed := failed + 1;
      }
      assert list[..|list|] == list;
    }

    /** What others do before an invoice's turn. */
    method Meanwhile(events: seq<Event>)
      modifies this
      ensures Now() == AfterAll(old(Now()), events)
    {
      for n := 0 to |events|
        invariant Now() == AfterAll(old(Now()), events[..n])
      {
        assert events[..n + 1][..n] == events[..n];
        match events[n] {
          case Reminder(tenant, phone, delivery) => var _ := SendReminder(tenant, phone, delivery);
          case Message(tenant, phone, delivery) => var _ := SendMessage(tenant, phone, delivery);
          case Job(tenant, phone, delivered) => var _ := ProcessJob(tenant, phone, delivered);
          case Wait(time) => now := now + time;
        }
      }
      assert events[..|events|] == events;
    }

    method BulkTurn(tenant: string, r: Recipient) returns (detail: Detail)
      modifies this
      ensures (Now(), detail) == BulkOne(old(Now()), tenant, r)
    {
      Meanwhile(r.meanwhile);
      if r.phone == None || r.phone.value == "" {
        return Detail(WasSkipped, "", now);
      }
      var key := PhoneKey(tenant, FormatPhone(r.phone.value));
      var today := Get(key);
      if today.Some? {
        return Detail(WasSkipped, key, now);
      }
      var at := now;
      var outcome := SendReminder(tenant, r.phone.value, r.delivery);
      if outcome == Sent {
        now := now + 500;
        return Detail(WasSent, key, at);
      }
      detail := Detail(WasFailed, key, at);
    }
  }

  // ----- Keys do not meet -----

  lemma {:induction false} KeyTail(tenant: string, rest: string)
    ensures ("wa:rate:" + tenant + ":" + rest)[8..] == tenant + [':'] + rest
  {
    assert "wa:rate:" + tenant + ":" + rest == "wa:rate:" + (tenant + [':'] + rest);
  }

  lemma {:induction false} PhoneKeyParts(tenant: string, phone: string)
    ensures PhoneKey(tenant, phone) == "wa:rate:" + tenant + ":" + (phone + ":daily")
  {}

  /** Different recipients have different keys. */
  lemma {:induction false} PhoneKeyInjective(t: string, p: string, u: string, q: string)
    requires ':' !in t && ':' !in u && PhoneKey(t, p) == PhoneKey(u, q)
    ensures t == u && p == q
  {
    PhoneKeyParts(t, p);
    PhoneKeyParts(u, q);
    KeyTail(t, p + ":daily");
    KeyTail(u, q + ":daily");
    CutAtFirst(t, p + ":daily", u, q + ":daily", ':');
    assert p == (p + ":daily")[..|p + ":daily"| - 6] && q == (q + ":daily")[..|q + ":daily"| - 6];
  }

  /** No phone's key is a tenant's daily total. */
  lemma {:induction false} KeysDiffer(t: string, p: string, u: string, day: nat)
    ensures PhoneKey(t, p) != TotalKey(u, day)
  {
    assert PhoneKey(t, p) == ("wa:rate:" + t + ":" + p) + [':'] + "daily";
    assert TotalKey(u, day) == ("wa:rate:" + u + ":total") + [':'] + Decimal(day);
    assert "daily"[0] == 'd' && !IsDigits("daily");
    if PhoneKey(t, p) == TotalKey(u, day) {
      CutAtLast("wa:rate:" + t + ":" + p, "daily", "wa:rate:" + u + ":total", Decimal(day), ':');
    }
  }

  lemma {:induction false} TotalKeyInjective(t: string, day: nat, u: string, other: nat)
    requires TotalKey(t, day) == TotalKey(u, other)
    ensures t == u && day == other
  {
    var a, b := "wa:rate:" + t + ":total", "wa:rate:" + u + ":total";
    assert TotalKey(t, day) == a + [':'] + Decimal(day) && TotalKey(u, other) == b + [':'] + Decimal(other);
    CutAtLast(a, Decimal(day), b, Decimal(other), ':');
    assert t == a[8..|a| - 6] && u == b[8..|b| - 6];
    DecimalInjective(day, other);
  }

  // ----- Every key expires -----

  /** Every key has a time to live, and every counter counts something. */
  ghost predicate Inv(s: State) {
    forall key :: key in s.store ==> s.store[key].expires.Some? && s.store[key].value >= 1
  }

  lemma {:induction false} StepKeeps(s: State, e: Event)
    requires Inv(s)
    ensures Inv(After(s, e))
  {}

  ghost predicate IsRun(states: seq<State>, events: seq<Event>) {
    && |states| == |events| + 1
    && forall k :: 0 <= k < |events| ==> states[k + 1] == After(states[k], events[k])
  }

  /** In every run, every key that is present has a time to live. */
  lemma {:induction false} AlwaysExpires(states: seq<State>, events: seq<Event>, k: nat)
    requires IsRun(states, events) && states[0] == START && k < |states|
    ensures Inv(states[k])
  {
    if k > 0 {
      AlwaysExpires(states, events, k - 1);
      StepKeeps(states[k - 1], events[k - 1]);
    } else {
    }
  }

  // ----- Reminders to one recipient -----

  /** Until then, the recipient's key holds a reminder. */
  ghost predicate Held(s: State, key: string, until: nat) {
    s.now >= until || (key in s.store && s.store[key].value >= 1 && s.store[key].expires == Some(until))
  }

  /** A held key stays held, whatever the API or the worker does. */
  lemma {:induction false} StepHolds(s: State, e: Event, t: string, p: string, until: nat)
    requires Held(s, PhoneKey(t, p), until)
    ensures Held(After(s, e), PhoneKey(t, p), until)
  {
    if e.Reminder? || e.Message? {
      KeysDiffer(t, p, e.tenant, s.now / DAY);
    }
  }

  lemma {:induction false} SentHolds(s: State, t: string, phone: string, delivery: Delivery)
    requires Answer(s, Reminder(t, phone, delivery)) == Sent
    ensures Held(After(s, Reminder(t, phone, delivery)), PhoneKey(t, FormatPhone(phone)), s.now + DAY)
  {}

  lemma {:induction false} RunHolds(states: seq<State>, events: seq<Event>, j: nat, k: nat, t: string, p: string,
          until: nat)
    requires IsRun(states, events) && j <= k < |states| && Held(states[j], PhoneKey(t, p), until)
    ensures Held(states[k], PhoneKey(t, p), until)
    decreases k
  {
    if j < k {
      RunHolds(states, events, j, k - 1, t, p, until);
      StepHolds(states[k - 1], events[k - 1], t, p, until);
    } else {
    }
  }

  lemma {:induction false} HeldIsRefused(s: State, t: string, phone: string, delivery: Delivery, until: nat)
    requires Held(s, PhoneKey(t, FormatPhone(phone)), until) && s.now < until
    ensures !Reaches(s, Reminder(t, phone, delivery))
  {}

  /** Once a reminder was sent and recorded, no other reminder of the tenant reaches that phone for
      a day, in any run and whatever the worker counts on the same key. */
  lemma {:induction false} RemindersApart(states: seq<State>, events: seq<Event>, j: nat, k: nat)
    requires IsRun(states, events) && j < k < |events|
    requires events[j].Reminder? && events[k].Reminder? && events[j].tenant == events[k].tenant
    requires FormatPhone(events[j].phone) == FormatPhone(events[k].phone)
    requires Answer(states[j], events[j]) == Sent && Reaches(states[k], events[k])
    ensures states[k].now >= states[j].now + DAY
  {
    var t, until := events[j].tenant, states[j].now + DAY;
    SentHolds(states[j], t, events[j].phone, events[j].delivery);
    RunHolds(states, events, j + 1, k, t, FormatPhone(events[j].phone), until);
    if states[k].now < until {
      HeldIsRefused(states[k], t, events[k].phone, events[k].delivery, until);
    }
  }

  /** After a reminder has reached a phone, a second one reaches it at once if and only if the first
      was not recorded. */
  lemma {:induction false} ReachesAgainExactly(s: State, t: string, phone: string, first: Delivery, second: Delivery)
    requires Reaches(s, Reminder(t, phone, first)) && second != Refused
    ensures Reaches(After(s, Reminder(t, phone, first)), Reminder(t, phone, second)) <==> first == Unrecorded
  {
    if first == Recorded {
      SentHolds(s, t, phone, first);
      HeldIsRefused(After(s, Reminder(t, phone, first)), t, phone, second, s.now + DAY);
    }
  }

  // ----- The tenant's daily limit -----

  predicate Accepted(s: State, e: Event, tenant: string, day: nat) {
    (e.Reminder? || e.Message?) && e.tenant == tenant && s.now / DAY == day && Answer(s, e) == Sent
  }

  function AcceptedIn(states: seq<State>, events: seq<Event>, tenant: string, day: nat, k: nat): nat
    requires IsRun(states, events) && k < |states|
    decreases k
  {
    if k == 0 then 0
    else
      AcceptedIn(states, events, tenant, day, k - 1)
      + if Accepted(states[k - 1], events[k - 1], tenant, day) then 1 else 0
  }

  /** The day's counter has counted `n` messages, and lasts beyond the day. */
  ghost predicate CountsDay(s: State, key: string, day: nat, n: nat) {
    n == 0 || (key in s.store && s.store[key].value >= n && s.store[key].expires.Some?
               && s.store[key].expires.value >= (day + 1) * DAY)
  }

  lemma {:induction false} WithinDay(now: nat, day: nat)
    requires now / DAY == day
    ensures now < (day + 1) * DAY <= now + 2 * DAY
  {}

  lemma {:induction false} StepCountsDay(s: State, e: Event, tenant: string, day: nat, n: nat)
    requires CountsDay(s, TotalKey(tenant, day), day, n) && n <= TENANT_LIMIT
    ensures var m := if Accepted(s, e, tenant, day) then n + 1 else n;
            CountsDay(After(s, e), TotalKey(tenant, day), day, m) && m <= TENANT_LIMIT
  {
    var key := TotalKey(tenant, day);
    if (e.Reminder? || e.Message?) && Answer(s, e) == Sent {
      KeysDiffer(tenant, FormatPhone(e.phone), tenant, day);
      KeysDiffer(e.tenant, FormatPhone(e.phone), tenant, day);
      if TotalKey(e.tenant, s.now / DAY) == key {
        TotalKeyInjective(e.tenant, s.now / DAY, tenant, day);
        WithinDay(s.now, day);
      }
    } else if e.Job? {
      KeysDiffer(e.tenant, e.phone, tenant, day);
    }
  }

  /** The API never has more than 1000 messages of a tenant accepted in a day. */
  lemma {:induction false} TenantLimitHolds(states: seq<State>, events: seq<Event>, tenant: string, day: nat, k: nat)
    requires IsRun(states, events) && states[0] == START && k < |states|
    ensures AcceptedIn(states, events, tenant, day, k) <= TENANT_LIMIT
    ensures CountsDay(states[k], TotalKey(tenant, day), day, AcceptedIn(states, events, tenant, day, k))
  {
    if k > 0 {
      TenantLimitHolds(states, events, tenant, day, k - 1);
      StepCountsDay(states[k - 1], events[k - 1], tenant, day, AcceptedIn(states, events, tenant, day, k - 1));
    } else {
    }
  }

  // ----- The worker's limit -----

  predicate Dispatches(s: State, e: Event, key: string) {
    e.Job? && e.phone != "" && PhoneKey(e.tenant, e.phone) == key && Answer(s, e) != PhoneLimited
  }

  function DispatchesIn(states: seq<State>, events: seq<Event>, key: string, j: nat, k: nat): nat
    requires IsRun(states, events) && j <= k < |states|
    decreases k
  {
    if j == k then 0
    else DispatchesIn(states, events, key, j, k - 1) + if Dispatches(states[k - 1], events[k - 1], key) then 1 else 0
  }

  lemma {:induction false} StepCounts(s: State, e: Event, t: string, p: string)
    requires Inv(s)
    ensures var key, u := PhoneKey(t, p), After(s, e);
            var dispatched := if Dispatches(s, e, key) then 1 else 0;
            && (Live(u.store, u.now, key) ==> ValueOf(u.store, u.now, key) >= ValueOf(s.store, s.now, key) + dispatched)
            && (dispatched == 1 ==> ValueOf(s.store, s.now, key) < JOB_LIMIT)
  {
    if e.Reminder? || e.Message? {
      KeysDiffer(t, p, e.tenant, s.now / DAY);
    }
  }

  /** While a key lives, the worker dispatches at most 250 messages on it. */
  lemma {:induction false} JobsLimited(states: seq<State>, events: seq<Event>, t: string, p: string, j: nat, k: nat)
    requires IsRun(states, events) && states[0] == START && j <= k < |states|
    requires forall n :: j < n <= k ==> Live(states[n].store, states[n].now, PhoneKey(t, p))
    ensures DispatchesIn(states, events, PhoneKey(t, p), j, k) <= JOB_LIMIT
    ensures DispatchesIn(states, events, PhoneKey(t, p), j, k)
            <= ValueOf(states[k].store, states[k].now, PhoneKey(t, p))
    decreases k
  {
    if j < k {
      JobsLimited(states, events, t, p, j, k - 1);
      AlwaysExpires(states, events, k - 1);
      StepCounts(states[k - 1], events[k - 1], t, p);
    } else {
    }
  }

  /** The worker counts on the phone as it was entered, the API on the formatted one. With nothing
      counted before, a job holds the API's reminder back if and only if the two are the same. */
  lemma {:induction false} JobHoldsBackExactly(s: State, t: string, phone: string, delivery: Delivery)
    requires ':' !in t && FormatPhone(phone) != ""
    requires TotalOf(s, t) < TENANT_LIMIT && PhoneOf(s, t, FormatPhone(phone)) == 0
    ensures Answer(After(s, Job(t, phone, true)), Reminder(t, phone, delivery)) == PhoneLimited
            <==> FormatPhone(phone) == phone
  {
    if FormatPhone(phone) != phone && PhoneKey(t, phone) == PhoneKey(t, FormatPhone(phone)) {
      PhoneKeyInjective(t, phone, t, FormatPhone(phone));
    }
    KeysDiffer(t, phone, t, s.now / DAY);
  }

  lemma {:induction false} DigitsStay(s: string)
    requires IsDigits(s)
    ensures OnlyDigits(s) == s
  {
    if s != "" {
      DigitsStay(s[1..]);
      assert s == [s[0]] + s[1..];
    } else {
    }
  }

  /** So of a phone entered as ten digits, it never does. */
  lemma {:induction false} TenDigitsAreNotHeldBack(s: State, t: string, phone: string)
    requires ':' !in t && IsDigits(phone) && |phone| == 10
    requires TotalOf(s, t) < TENANT_LIMIT && PhoneOf(s, t, FormatPhone(phone)) == 0
    ensures Answer(After(s, Job(t, phone, true)), Reminder(t, phone, Recorded)) == Sent
  {
    DigitsStay(phone);
    assert |FormatPhone(phone)| == 12;
    if PhoneKey(t, phone) == PhoneKey(t, FormatPhone(phone)) {
      PhoneKeyInjective(t, phone, t, FormatPhone(phone));
    }
    KeysDiffer(t, phone, t, s.now / DAY);
  }

  // ----- Bulk runs -----

  lemma {:induction false} AllHold(s: State, events: seq<Event>, t: string, p: string, until: nat)
    requires Held(s, PhoneKey(t, p), until)
    ensures Held(AfterAll(s, events), PhoneKey(t, p), until)
    decreases |events|
  {
    if events != [] {
      var before := events[..|events| - 1];
      AllHold(s, before, t, p, until);
      StepHolds(AfterAll(s, before), events[|events| - 1], t, p, until);
    } else {
    }
  }

  function KeyFor(tenant: string, r: Recipient): string {
    PhoneKey(tenant, FormatPhone(r.phone.GetOr("")))
  }

  predicate OwnReaches(s: State, tenant: string, r: Recipient) {
    && r.phone.GetOr("") != "" && !Live(s.store, s.now, KeyFor(tenant, r))
    && Reaches(s, Reminder(tenant, r.phone.value, r.delivery))
  }

  /** The provider takes the reminder of this turn. */
  predicate TurnReaches(s: State, tenant: string, r: Recipient) {
    OwnReaches(AfterAll(s, r.meanwhile), tenant, r)
  }

  lemma {:induction false} SentReaches(s: State, tenant: string, r: Recipient)
    ensures BulkOne(s, tenant, r).1.verdict == WasSent <==> TurnReaches(s, tenant, r) && r.delivery == Recorded
    ensures TurnReaches(s, tenant, r) ==> BulkOne(s, tenant, r).1.key == KeyFor(tenant, r)
  {}

  /** An invoice is skipped if there is no phone to send to or its key still counts something; after
      one that was sent the run pauses for half a second. */
  lemma {:induction false} TurnInFigures(s: State, tenant: string, r: Recipient)
    ensures var u := AfterAll(s, r.meanwhile);
            var (t, detail) := BulkOne(s, tenant, r);
            && (detail.verdict == WasSkipped <==> r.phone.GetOr("") == "" || Live(u.store, u.now, KeyFor(tenant, r)))
            && detail.at == u.now && t.now == u.now + (if detail.verdict == WasSent then 500 else 0)
            && t.store == (if detail.verdict == WasSent then After(u, Reminder(tenant, r.phone.value, r.delivery))
                           else u).store
  {}

  lemma {:induction false} OwnTurnHolds(s: State, tenant: string, r: Recipient, t: string, p: string, until: nat)
    requires Held(s, PhoneKey(t, p), until)
    ensures Held(OwnTurn(s, tenant, r).0, PhoneKey(t, p), until)
    ensures OwnReaches(s, tenant, r) && KeyFor(tenant, r) == PhoneKey(t, p) ==> s.now >= until
  {
    if r.phone.Some? {
      var e := Reminder(tenant, r.phone.value, r.delivery);
      StepHolds(s, e, t, p, until);
      StepHolds(After(s, e), Wait(500), t, p, until);
    }
  }

  /** A turn keeps what is held, and reaches a held key only once its time is over. */
  lemma {:induction false} TurnHolds(s: State, tenant: string, r: Recipient, t: string, p: string, until: nat)
    requires Held(s, PhoneKey(t, p), until)
    ensures Held(BulkOne(s, tenant, r).0, PhoneKey(t, p), until)
    ensures TurnReaches(s, tenant, r) && KeyFor(tenant, r) == PhoneKey(t, p) ==> BulkOne(s, tenant, r).1.at >= until
  {
    AllHold(s, r.meanwhile, t, p, until);
    OwnTurnHolds(AfterAll(s, r.meanwhile), tenant, r, t, p, until);
  }

  lemma {:induction false} SentTurn(s: State, tenant: string, r: Recipient)
    requires BulkOne(s, tenant, r).1.verdict == WasSent
    ensures r.phone.Some? && BulkOne(s, tenant, r).1.key == PhoneKey(tenant, FormatPhone(r.phone.value))
    ensures var (t, detail) := BulkOne(s, tenant, r);
            Held(t, PhoneKey(tenant, FormatPhone(r.phone.value)), detail.at + DAY)
  {
    var u := AfterAll(s, r.meanwhile);
    var e := Reminder(tenant, r.phone.value, r.delivery);
    SentHolds(u, tenant, r.phone.value, r.delivery);
    StepHolds(After(u, e), Wait(500), tenant, FormatPhone(r.phone.value), u.now + DAY);
  }

  /** What is noted about the k-th invoice. */
  function DetailAt(s: State, tenant: string, list: seq<Recipient>, k: nat): Detail
    requires k < |list|
  {
    BulkOne(Bulk(s, tenant, list[..k]).state, tenant, list[k]).1
  }

  /** Whether the provider takes the reminder of the k-th invoice. */
  predicate ReachedAt(s: State, tenant: string, list: seq<Recipient>, k: nat)
    requires k < |list|
  {
    TurnReaches(Bulk(s, tenant, list[..k]).state, tenant, list[k])
  }

  lemma {:induction false} DetailsOfBulk(s: State, tenant: string, list: seq<Recipient>, details: seq<Detail>, k: nat)
    requires details == Bulk(s, tenant, list).details && k < |list|
    ensures |details| == |list| && details[k] == DetailAt(s, tenant, list, k)
    decreases |list|
  {
    var before := list[..|list| - 1];
    if k < |before| {
      DetailsOfBulk(s, tenant, before, Bulk(s, tenant, before).details, k);
      assert before[..k] == list[..k];
    } else if before != [] {
      DetailsOfBulk(s, tenant, before, Bulk(s, tenant, before).details, 0);
    } else {
      assert Bulk(s, tenant, before).details == [];
    }
  }

  lemma {:induction false} BulkStep(s: State, tenant: string, list: seq<Recipient>)
    requires list != []
    ensures Bulk(s, tenant, list).state ==
        BulkOne(Bulk(s, tenant, list[..|list| - 1]).state, tenant, list[|list| - 1]).0
  {}

  /** What is held after the first `m` invoices is held after all of them. */
  lemma {:induction false} BulkHolds(s: State, tenant: string, list: seq<Recipient>, m: nat, p: string, until: nat)
    requires m <= |list| && Held(Bulk(s, tenant, list[..m]).state, PhoneKey(tenant, p), until)
    ensures Held(Bulk(s, tenant, list).state, PhoneKey(tenant, p), until)
    decreases |list|
  {
    if m < |list| {
      var before := list[..|list| - 1];
      assert before[..m] == list[..m];
      BulkHolds(s, tenant, before, m, p, until);
      TurnHolds(Bulk(s, tenant, before).state, tenant, list[|list| - 1], tenant, p, until);
      BulkStep(s, tenant, list);
    } else {
      assert list[..m] == list;
    }
  }

  lemma {:induction false} BulkPrefix(s: State, tenant: string, list: seq<Recipient>, m: nat)
    requires m < |list|
    ensures Bulk(s, tenant, list[..m + 1]).state == BulkOne(Bulk(s, tenant, list[..m]).state, tenant, list[m]).0
  {
    assert list[..m + 1][..m] == list[..m];
    BulkStep(s, tenant, list[..m + 1]);
  }

  lemma {:induction false} SentIsHeld(s: State, tenant: string, list: seq<Recipient>, m: nat) returns (p: string)
    requires m < |list| && DetailAt(s, tenant, list, m).verdict == WasSent
    ensures DetailAt(s, tenant, list, m).key == PhoneKey(tenant, p)
    ensures Held(Bulk(s, tenant, list[..m + 1]).state, PhoneKey(tenant, p), DetailAt(s, tenant, list, m).at + DAY)
  {
    SentTurn(Bulk(s, tenant, list[..m]).state, tenant, list[m]);
    p := FormatPhone(list[m].phone.value);
    BulkPrefix(s, tenant, list, m);
  }

  lemma {:induction false} SentApart(s: State, tenant: string, list: seq<Recipient>, m: nat, n: nat)
    requires m < n < |list| && DetailAt(s, tenant, list, m).verdict == WasSent && ReachedAt(s, tenant, list, n)
    requires DetailAt(s, tenant, list, m).key == KeyFor(tenant, list[n])
    ensures DetailAt(s, tenant, list, n).at >= DetailAt(s, tenant, list, m).at + DAY
  {
    var p := SentIsHeld(s, tenant, list, m);
    var until := DetailAt(s, tenant, list, m).at + DAY;
    assert list[..n][..m + 1] == list[..m + 1];
    BulkHolds(s, tenant, list[..n], m + 1, p, until);
    TurnHolds(Bulk(s, tenant, list[..n]).state, tenant, list[n], tenant, p, until);
  }

  /** After an invoice of a bulk run was sent to a phone, no other of the run reaches that phone for
      a day. */
  lemma {:induction false} BulkSentApart(s: State, tenant: string, list: seq<Recipient>, details: seq<Detail>,
          m: nat, n: nat)
    requires details == Bulk(s, tenant, list).details && m < n < |list| == |details|
    requires details[m].verdict == WasSent && ReachedAt(s, tenant, list, n) && details[m].key == details[n].key
    ensures details[n].at >= details[m].at + DAY
  {
    DetailsOfBulk(s, tenant, list, details, m);
    DetailsOfBulk(s, tenant, list, details, n);
    SentReaches(Bulk(s, tenant, list[..n]).state, tenant, list[n]);
    SentApart(s, tenant, list, m, n);
  }

  lemma {:induction false} TimePasses(s: State, events: seq<Event>)
    ensures AfterAll(s, events).now >= s.now
    decreases |events|
  {
    if events != [] {
      TimePasses(s, events[..|events| - 1]);
    } else {
    }
  }

  lemma {:induction false} TurnPasses(s: State, tenant: string, r: Recipient)
    ensures s.now <= BulkOne(s, tenant, r).1.at <= BulkOne(s, tenant, r).0.now
  {
    TimePasses(s, r.meanwhile);
  }

  /** Every invoice is dealt with between the start and the end of the run. */
  lemma {:induction false} WithinRun(s: State, tenant: string, list: seq<Recipient>)
    ensures var run := Bulk(s, tenant, list);
            && s.now <= run.state.now && |run.details| == |list|
            && forall k :: 0 <= k < |list| ==> s.now <= run.details[k].at <= run.state.now
    decreases |list|
  {
    if list != [] {
      var before := list[..|list| - 1];
      WithinRun(s, tenant, before);
      TurnPasses(Bulk(s, tenant, before).state, tenant, list[|list| - 1]);
    } else {
    }
  }

  /** If two reminders of a bulk run of less than a day reach one phone, then writing the record of
      the first of them has failed. */
  lemma {:induction false} ReachedTwice(s: State, tenant: string, list: seq<Recipient>, m: nat, n: nat)
    requires Bulk(s, tenant, list).state.now < s.now + DAY && m < n < |list|
    requires ReachedAt(s, tenant, list, m) && ReachedAt(s, tenant, list, n)
    requires KeyFor(tenant, list[m]) == KeyFor(tenant, list[n])
    ensures list[m].delivery == Unrecorded
  {
    var details := Bulk(s, tenant, list).details;
    WithinRun(s, tenant, list);
    DetailsOfBulk(s, tenant, list, details, m);
    DetailsOfBulk(s, tenant, list, details, n);
    SentReaches(Bulk(s, tenant, list[..m]).state, tenant, list[m]);
    SentReaches(Bulk(s, tenant, list[..n]).state, tenant, list[n]);
    if list[m].delivery == Recorded {
      BulkSentApart(s, tenant, list, details, m, n);
    }
  }

  lemma {:induction false} SentIsReached(s: State, tenant: string, list: seq<Recipient>, details: seq<Detail>, k: nat)
    requires details == Bulk(s, tenant, list).details && k < |list| == |details| && details[k].verdict == WasSent
    ensures ReachedAt(s, tenant, list, k) && list[k].delivery == Recorded && details[k].key == KeyFor(tenant, list[k])
  {
    DetailsOfBulk(s, tenant, list, details, k);
    SentReaches(Bulk(s, tenant, list[..k]).state, tenant, list[k]);
  }

  /** A bulk run of less than a day notes at most one reminder as sent to each phone. */
  lemma {:induction false} AtMostOneSent(s: State, tenant: string, list: seq<Recipient>)
    requires Bulk(s, tenant, list).state.now < s.now + DAY
    ensures var details := Bulk(s, tenant, list).details;
            forall m, n :: 0 <= m < n < |details| && details[m].verdict == WasSent && details[n].verdict == WasSent ==>
              details[m].key != details[n].key
  {
    var details := Bulk(s, tenant, list).details;
    WithinRun(s, tenant, list);
    forall m, n | 0 <= m < n < |details| && details[m].verdict == WasSent && details[n].verdict == WasSent
      ensures details[m].key != details[n].key
    {
      SentIsReached(s, tenant, list, details, m);
      SentIsReached(s, tenant, list, details, n);
      if details[m].key == details[n].key {
        ReachedTwice(s, tenant, list, m, n);
      }
    }
  }

  /** And such a run: two reminders in a row reach one phone, the first of them unrecorded. */
  lemma {:induction false} UnrecordedReachedTwice(tenant: string, phone: string)
    requires FormatPhone(phone) != "" && phone != ""
    ensures var list := [Recipient([], Some(phone), Unrecorded)] + [Recipient([], Some(phone), Recorded)];
            && ReachedAt(START, tenant, list, 0) && ReachedAt(START, tenant, list, 1)
            && Bulk(START, tenant, list).state.now == 500
  {
    var first, second := Recipient([], Some(phone), Unrecorded), Recipient([], Some(phone), Recorded);
    var list := [first] + [second];
    assert list[..0] == [] && list[..1] == [first] && [first][..0] == [];
    assert Bulk(START, tenant, [first]).state == START;
    BulkStep(START, tenant, list);
  }

  /** A longer one may send two: a day passes between two invoices of one customer. */
  lemma {:induction false} TwoSent(tenant: string, phone: string)
    requires FormatPhone(phone) != "" && phone != ""
    ensures var list := [Recipient([], Some(phone), Recorded)] + [Recipient([Wait(DAY)], Some(phone), Recorded)];
            var details := Bulk(START, tenant, list).details;
            && |details| == 2 && details[0].verdict == WasSent && details[1].verdict == WasSent
            && details[0].key == details[1].key && details[1].at == details[0].at + 500 + DAY
  {
    var first, second := Recipient([], Some(phone), Recorded), Recipient([Wait(DAY)], Some(phone), Recorded);
    var list, s := [first] + [second], BulkOne(START, tenant, first).0;
    assert list[..1] == [first] && list[..1][..0] == [];
    assert Bulk(START, tenant, []) == Progress(START, []);
    assert Bulk(START, tenant, [first]) == Progress(s, [BulkOne(START, tenant, first).1]);
    assert [Wait(DAY)][..0] == [] && AfterAll(s, [Wait(DAY)]) == After(s, Wait(DAY));
    FirstTurn(tenant, first);
    SecondTurn(tenant, s, second);
  }

  lemma {:induction false} FirstTurn(tenant: string, r: Recipient)
    requires r.meanwhile == [] && r.phone.Some? && r.phone.value != "" && FormatPhone(r.phone.value) != ""
        && r.delivery == Recorded
    ensures var key := PhoneKey(tenant, FormatPhone(r.phone.value));
            && BulkOne(START, tenant, r).1 == Detail(WasSent, key, 0) && BulkOne(START, tenant, r).0.now == 500
            && BulkOne(START, tenant, r).0.store ==
               map[TotalKey(tenant, 0) := Cell(1, Some(2 * DAY))][key := Cell(1, Some(DAY))]
  {}

  lemma {:induction false} SecondTurn(tenant: string, s: State, r: Recipient)
    requires r.phone.Some? && r.phone.value != "" && FormatPhone(r.phone.value) != ""
        && r.delivery == Recorded
    requires AfterAll(s, r.meanwhile) == After(s, Wait(DAY)) && s.now == 500
    requires s.store ==
             map[TotalKey(tenant, 0) := Cell(1, Some(2 * DAY))]
             [PhoneKey(tenant, FormatPhone(r.phone.value)) := Cell(1, Some(DAY))]
    ensures BulkOne(s, tenant, r).1 == Detail(WasSent, PhoneKey(tenant, FormatPhone(r.phone.value)), 500 + DAY)
  {
    assert (500 + DAY) / DAY == 1;
    KeysDiffer(tenant, FormatPhone(r.phone.value), tenant, 1);
  }
}
