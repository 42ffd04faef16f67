/** The customer list and its Redis cache. Handlers run one after another; only they write
    customers. */
module CustomerCache {
  import opened Digits
  import opened Options

  datatype Fields = Fields(name: string, phone: string, email: string, gstin: string)

  /** A customer's id is its place in the order of creation; removed ones are inactive. */
  datatype Customer = Customer(tenant: string, fields: Fields, active: bool)

  datatype Patch = Patch(name: Option<string>, phone: Option<string>, email: Option<string>, gstin: Option<string>)

  function Patched(f: Fields, p: Patch): Fields {
    Fields(p.name.GetOr(f.name), p.phone.GetOr(f.phone), p.email.GetOr(f.email), p.gstin.GetOr(f.gstin))
  }

  /** A listing asked for; no search text is the empty one. */
  datatype Request = Request(tenant: string, search: string, page: int, limit: nat)

  /** With a limit of 0 there is no number of pages. */
  datatype Page = Page(data: seq<Customer>, total: nat, page: int, limit: nat, totalPages: Option<nat>)

  // ----- The direct query -----

  function Lower(c: char): char {
    if 'A' <= c <= 'Z' then (c as int + 32) as char else c
  }

  function Folded(s: string): string {
    seq(|s|, i requires 0 <= i < |s| => Lower(s[i]))
  }

  predicate Contains(text: string, part: string) {
    exists k {:trigger text[k..]} :: 0 <= k <= |text| && Folded(part) <= Folded(text[k..])
  }

  predicate Visible(c: Customer, tenant: string, search: string) {
    && c.tenant == tenant && c.active
    && (search == "" || Contains(c.fields.name, search) || Contains(c.fields.phone, search)
        || Contains(c.fields.email, search) || Contains(c.fields.gstin, search))
  }

  /** All matching customers, newest first. */
  function Listed(rows: seq<Customer>, tenant: string, search: string): seq<Customer> {
    if rows == [] then []
    else
      var last := rows[|rows| - 1];
      (if Visible(last, tenant, search) then [last] else []) + Listed(rows[..|rows| - 1], tenant, search)
  }

  function UpTo(n: nat, most: nat): nat {
    if n < most then n else most
  }

  function Slice<T>(s: seq<T>, skip: nat, take: nat): seq<T> {
    s[UpTo(skip, |s|)..UpTo(skip + take, |s|)]
  }

  predicate IsRequest(r: Request) {
    ':' !in r.tenant
  }

  function TotalPages(total: nat, limit: nat): Option<nat> {
    if limit == 0 then None else Some((total + limit - 1) / limit)
  }

  function Skip(r: Request): int {
    (r.page - 1) * r.limit
  }

  function Query(rows: seq<Customer>, r: Request): Page
    requires Skip(r) >= 0
  {
    var all := Listed(rows, r.tenant, r.search);
    Page(Slice(all, Skip(r), r.limit), |all|, r.page, r.limit, TotalPages(|all|, r.limit))
  }

  /** The database refuses to skip a negative number of rows. */
  function Direct(rows: seq<Customer>, r: Request): Outcome {
    if Skip(r) < 0 then Rejected else Found(Query(rows, r))
  }

  // ----- The service -----

  datatype Entry = Entry(page: Page, expires: nat)

  datatype State = State(rows: seq<Customer>, cache: map<string, Entry>, now: nat)

  datatype Event =
    | Create(tenant: string, fields: Fields)
    | Update(tenant: string, id: nat, patch: Patch)
    | Remove(tenant: string, id: nat, pendingInvoices: nat)
    | FindAll(request: Request)
    | Wait(seconds: nat)

  datatype Outcome = Done | NotFound | BadRequest | Rejected | Found(page: Page)

  const START := State([], map[], 0)

  function Shown(n: int): string {
    if n < 0 then "-" + Decimal(-n) else Decimal(n)
  }

  function KeyOf(r: Request): string {
    "customers:" + r.tenant + ":search:" + r.search + ":page:" + Shown(r.page) + ":limit:" + Decimal(r.limit)
  }

  function Prefix(tenant: string): string {
    "customers:" + tenant + ":"
  }

  /** The keys matching `customers:<tenant>:*` are deleted. */
  function Cleared(cache: map<string, Entry>, tenant: string): map<string, Entry> {
    map key | key in cache && !(Prefix(tenant) <= key) :: cache[key]
  }

  predicate Valid(e: Event) {
    match e
    case Create(tenant, _) => ':' !in tenant
    case Update(tenant, _, _) => ':' !in tenant
    case Remove(tenant, _, _) => ':' !in tenant
    case FindAll(r) => IsRequest(r)
    case Wait(_) => true
  }

  predicate Cached(s: State, key: string) {
    key in s.cache && s.now < s.cache[key].expires
  }

  predicate Known(s: State, tenant: string, id: nat) {
    id < |s.rows| && s.rows[id].tenant == tenant && s.rows[id].active
  }

  function Answer(s: State, e: Event): Outcome
    requires Valid(e)
  {
    match e
    case Create(_, _) => Done
    case Update(tenant, id, _) => if Known(s, tenant, id) then Done else NotFound
    case Remove(tenant, id, pending) =>
      if !Known(s, tenant, id) then NotFound else if pending > 0 then BadRequest else Done
    case FindAll(r) => if Cached(s, KeyOf(r)) then Found(s.cache[KeyOf(r)].page) else Direct(s.rows, r)
    case Wait(_) => Done
  }

  function After(s: State, e: Event): State
    requires Valid(e)
  {
    match e
    case Create(tenant, fields) =>
      s.(rows := s.rows + [Customer(tenant, fields, true)], cache := Cleared(s.cache, tenant))
    case Update(tenant, id, patch) =>
      if !Known(s, tenant, id) then s
      else s.(rows := s.rows[id := s.rows[id].(fields := Patched(s.rows[id].fields, patch))],
          cache := Cleared(s.cache, tenant))
    case Remove(tenant, id, pending) =>
      if !Known(s, tenant, id) || pending > 0 then s
      else s.(rows := s.rows[id := s.rows[id].(active := false)], cache := Cleared(s.cache, tenant))
    case FindAll(r) =>
      if Cached(s, KeyOf(r)) || Skip(r) < 0 then s
      else s.(cache := s.cache[KeyOf(r) := Entry(Query(s.rows, r), s.now + 300)])
    case Wait(seconds) => s.(now := s.now + seconds)
  }

  class CustomerService {
    var rows: seq<Customer>
    var cache: map<string, Entry>
    var clock: nat

    ghost function Now(): State
      reads this
    {
      State(rows, cache, clock)
    }

    constructor ()
      ensures Now() == START
    {
      rows, cache, clock := [], map[], 0;
    }

    method ClearCache(tenant: string)
      modifies `cache
      ensures cache == Cleared(old(cache), tenant)
    {
      var keys := set key | key in cache && "customers:" + tenant + ":" <= key;
      cache := map key | key in cache && key !in keys :: cache[key];
    }

    method Create(tenant: string, fields: Fields) returns (outcome: Outcome)
      requires ':' !in tenant
      modifies this
      ensures outcome == Answer(old(Now()), Event.Create(tenant, fields))
      ensures Now() == After(old(Now()), Event.Create(tenant, fields))
    {
      rows := rows + [Customer(tenant, fields, true)];
      ClearCache(tenant);
      outcome := Done;
    }

    method Update(tenant: string, id: nat, patch: Patch) returns (outcome: Outcome)
      requires ':' !in tenant
      modifies this
      ensures outcome == Answer(old(Now()), Event.Update(tenant, id, patch))
      ensures Now() == After(old(Now()), Event.Update(tenant, id, patch))
    {
      if !(id < |rows| && rows[id].tenant == tenant && rows[id].active) {
        return NotFound;
      }
      rows := rows[id := rows[id].(fields := Patched(rows[id].fields, patch))];
      ClearCache(tenant);
      outcome := Done;
    }

    method Remove(tenant: string, id: nat, pendingInvoices: nat) returns (outcome: Outcome)
      requires ':' !in tenant
      modifies this
      ensures outcome == Answer(old(Now()), Event.Remove(tenant, id, pendingInvoices))
      ensures Now() == After(old(Now()), Event.Remove(tenant, id, pendingInvoices))
    {
      if !(id < |rows| && rows[id].tenant == tenant && rows[id].active) {
        return NotFound;
      }
      if pendingInvoices > 0 {
        return BadRequest;
      }
      rows := rows[id := rows[id].(active := false)];
      ClearCache(tenant);
      outcome := Done;
    }

    method FetchPage(r: Request) returns (outcome: Outcome)
      ensures outcome == Direct(rows, r)
    {
      var skip := (r.page - 1) * r.limit;
      if skip < 0 {
        return Rejected;
      }
      var customers := Listed(rows, r.tenant, r.search);
      outcome := Found(Page(Slice(customers, skip, r.limit), |customers|, r.page, r.limit,
          TotalPages(|customers|, r.limit)));
    }

    method FindAll(r: Request) returns (outcome: Outcome)
      requires IsRequest(r)
      modifies this
      ensures outcome == Answer(old(Now()), Event.FindAll(r))
      ensures Now() == After(old(Now()), Event.FindAll(r))
    {
      var cacheKey := KeyOf(r);
      if cacheKey in cache && clock < cache[cacheKey].expires {
        return Found(cache[cacheKey].page);
      }
      outcome := FetchPage(r);
      if outcome.Found? {
        cache := cache[cacheKey := Entry(outcome.page, clock + 300)];
      }
    }
  }

  // ----- Keys -----

  function AfterTenant(r: Request): string {
    "search:" + r.search + ":page:" + Shown(r.page) + ":limit:" + Decimal(r.limit)
  }

  lemma {:induction false} OnePartMore(whole: string, head: string, tail: string, part: string)
    requires whole == head + tail
    ensures whole + part == head + (tail + part)
  {}

  lemma {:induction false} Regrouped(head: string, mark: string, first: string, a: string, b: string, c: string,
          d: string, e: string)
    requires mark == [':'] + first
    ensures head + mark + a + b + c + d + e == head + [':'] + (first + a + b + c + d + e)
  {
    var h := head + [':'];
    assert head + mark == h + first;
    OnePartMore(h + first, h, first, a);
    OnePartMore(h + first + a, h, first + a, b);
    OnePartMore(h + first + a + b, h, first + a + b, c);
    OnePartMore(h + first + a + b + c, h, first + a + b + c, d);
    OnePartMore(h + first + a + b + c + d, h, first + a + b + c + d, e);
  }

  lemma {:induction false} WithoutHead(head: string, tenant: string, rest: string)
    ensures (head + tenant + [':'] + rest)[|head|..] == tenant + [':'] + rest
    ensures head + tenant + [':'] + rest == head + (tenant + [':'] + rest)
  {}

  lemma {:induction false} KeyParts(r: Request)
    ensures KeyOf(r)[10..] == r.tenant + [':'] + AfterTenant(r) && Prefix(r.tenant) <= KeyOf(r)
    ensures KeyOf(r) == "customers:" + KeyOf(r)[10..]
  {
    assert ":search:" == [':'] + "search:";
    Regrouped("customers:" + r.tenant, ":search:", "search:", r.search, ":page:", Shown(r.page), ":limit:",
        Decimal(r.limit));
    WithoutHead("customers:", r.tenant, AfterTenant(r));
  }

  lemma {:induction false} NoColon(n: nat)
    ensures ':' !in Decimal(n)
  {}

  lemma {:induction false} ShownInjective(m: int, n: int)
    ensures ':' !in Shown(m) && (Shown(m) == Shown(n) ==> m == n)
  {
    Signed(m);
    Signed(n);
    if Shown(m) == Shown(n) {
      var a, b := if m < 0 then -m else m, if n < 0 then -n else n;
      DecimalInjective(a, b);
    }
  }

  lemma {:induction false} Signed(n: int)
    ensures n >= 0 ==> Shown(n) != "" && Shown(n)[0] != '-' && ':' !in Shown(n)
    ensures n < 0 ==> Shown(n)[0] == '-' && Shown(n)[1..] == Decimal(-n) && ':' !in Shown(n)
  {
    NoColon(if n < 0 then -n else n);
  }

  lemma {:induction false} SameSuffix(a: string, b: string, suffix: string)
    requires a + suffix == b + suffix
    ensures a == b
  {
    assert a == (a + suffix)[..|a|] && b == (b + suffix)[..|b|];
    assert |a| == |b|;
  }

  lemma {:induction false} CutText(a: string, x: string, b: string, y: string, stem: string)
    requires a + (stem + [':']) + x == b + (stem + [':']) + y && ':' !in x && ':' !in y
    ensures a == b && x == y
  {
    assert a + (stem + [':']) + x == (a + stem) + [':'] + x;
    assert b + (stem + [':']) + y == (b + stem) + [':'] + y;
    CutAtLast(a + stem, x, b + stem, y, ':');
    SameSuffix(a, b, stem);
  }

  /** A text before a label and a number, whatever the text contains. */
  lemma {:induction false} CutNumber(a: string, m: int, b: string, n: int, mark: string)
    requires mark != "" && mark[|mark| - 1] == ':' && a + mark + Shown(m) == b + mark + Shown(n)
    ensures a == b && m == n
  {
    var stem := mark[..|mark| - 1];
    assert mark == stem + [':'];
    ShownInjective(m, n);
    ShownInjective(n, m);
    CutText(a, Shown(m), b, Shown(n), stem);
  }

  lemma {:induction false} AfterTenantInjective(r: Request, q: Request)
    requires AfterTenant(r) == AfterTenant(q)
    ensures r.search == q.search && r.page == q.page && r.limit == q.limit
  {
    var a, b := "search:" + r.search, "search:" + q.search;
    CutNumber(a + ":page:" + Shown(r.page), r.limit, b + ":page:" + Shown(q.page), q.limit, ":limit:");
    CutNumber(a, r.page, b, q.page, ":page:");
    assert r.search == a[7..] && q.search == b[7..];
  }

  /** Different listings have different keys, also when a search text contains the separators. */
  lemma {:induction false} KeyInjective(r: Request, q: Request)
    requires IsRequest(r) && IsRequest(q) && KeyOf(r) == KeyOf(q)
    ensures r == q
  {
    KeyParts(r);
    KeyParts(q);
    CutAtFirst(r.tenant, AfterTenant(r), q.tenant, AfterTenant(q), ':');
    AfterTenantInjective(r, q);
  }

  lemma {:induction false} Matched(tenant: string, key: string) returns (rest: string)
    requires Prefix(tenant) <= key
    ensures key[10..] == tenant + [':'] + rest
  {
    rest := key[|Prefix(tenant)|..];
    assert key == Prefix(tenant) + rest;
    WithoutHead("customers:", tenant, rest);
  }

  /** A tenant's pattern matches exactly the keys of its own listings. */
  lemma {:induction false} PrefixIsOwn(tenant: string, r: Request)
    requires ':' !in tenant && IsRequest(r)
    ensures Prefix(tenant) <= KeyOf(r) <==> tenant == r.tenant
  {
    KeyParts(r);
    if Prefix(tenant) <= KeyOf(r) {
      var rest := Matched(tenant, KeyOf(r));
      CutAtFirst(tenant, rest, r.tenant, AfterTenant(r), ':');
    }
  }

  // ----- Coherence -----

  ghost predicate Answers(page: Page, rows: seq<Customer>, key: string, r: Request) {
    IsRequest(r) && KeyOf(r) == key && Skip(r) >= 0 && page == Query(rows, r)
  }

  /** Every entry of the cache is what the direct query returns. */
  ghost predicate Coherent(s: State) {
    forall key :: key in s.cache ==> exists r :: Answers(s.cache[key].page, s.rows, key, r)
  }

  lemma {:induction false} CoherentAt(s: State, r: Request)
    requires Coherent(s) && IsRequest(r) && KeyOf(r) in s.cache
    ensures Direct(s.rows, r) == Found(s.cache[KeyOf(r)].page)
  {
    var q :| Answers(s.cache[KeyOf(r)].page, s.rows, KeyOf(r), q);
    KeyInjective(r, q);
  }

  lemma {:induction false} ListedOfChange(rows: seq<Customer>, id: nat, c: Customer, tenant: string, search: string)
    requires id < |rows| && rows[id].tenant != tenant && c.tenant != tenant
    ensures Listed(rows[id := c], tenant, search) == Listed(rows, tenant, search)
    decreases |rows|
  {
    var init := rows[..|rows| - 1];
    if id < |init| {
      ListedOfChange(init, id, c, tenant, search);
      assert rows[id := c][..|rows| - 1] == init[id := c];
    } else {
      assert rows[id := c][..|rows| - 1] == init;
    }
  }

  lemma {:induction false} ListedOfMore(rows: seq<Customer>, c: Customer, tenant: string, search: string)
    requires c.tenant != tenant
    ensures Listed(rows + [c], tenant, search) == Listed(rows, tenant, search)
  {
    assert (rows + [c])[..|rows|] == rows;
  }

  /** Rows that differ only in one tenant's customers. */
  ghost predicate SameForOthers(rows: seq<Customer>, after: seq<Customer>, tenant: string) {
    forall t: string, search: string :: t != tenant ==> Listed(after, t, search) == Listed(rows, t, search)
  }

  lemma {:induction false} WriteKeepsCoherent(s: State, rows: seq<Customer>, tenant: string)
    requires Coherent(s) && ':' !in tenant && SameForOthers(s.rows, rows, tenant)
    ensures Coherent(s.(rows := rows, cache := Cleared(s.cache, tenant)))
  {
    var t := s.(rows := rows, cache := Cleared(s.cache, tenant));
    forall key | key in t.cache ensures exists r :: Answers(t.cache[key].page, t.rows, key, r) {
      var r :| Answers(s.cache[key].page, s.rows, key, r);
      StillAnswers(s.cache[key].page, s.rows, rows, key, r, tenant);
    }
  }

  lemma {:induction false} StillAnswers(page: Page, rows: seq<Customer>, after: seq<Customer>, key: string,
          r: Request, tenant: string)
    requires Answers(page, rows, key, r) && SameForOthers(rows, after, tenant)
    requires ':' !in tenant && !(Prefix(tenant) <= key)
    ensures Answers(page, after, key, r)
  {
    PrefixIsOwn(tenant, r);
    assert Listed(after, r.tenant, r.search) == Listed(rows, r.tenant, r.search);
  }

  lemma {:induction false} ChangeSameForOthers(rows: seq<Customer>, id: nat, c: Customer)
    requires id < |rows| && c.tenant == rows[id].tenant
    ensures SameForOthers(rows, rows[id := c], c.tenant)
  {
    forall t: string, search: string | t != c.tenant
      ensures Listed(rows[id := c], t, search) == Listed(rows, t, search)
    {
      ListedOfChange(rows, id, c, t, search);
    }
  }

  lemma {:induction false} MoreSameForOthers(rows: seq<Customer>, c: Customer)
    ensures SameForOthers(rows, rows + [c], c.tenant)
  {
    forall t: string, search: string | t != c.tenant ensures Listed(rows + [c], t, search) == Listed(rows, t, search) {
      ListedOfMore(rows, c, t, search);
    }
  }

  lemma {:induction false} FindKeepsCoherent(s: State, r: Request)
    requires Coherent(s) && IsRequest(r) && Skip(r) >= 0
    ensures Coherent(s.(cache := s.cache[KeyOf(r) := Entry(Query(s.rows, r), s.now + 300)]))
  {
    var t := s.(cache := s.cache[KeyOf(r) := Entry(Query(s.rows, r), s.now + 300)]);
    forall key | key in t.cache ensures exists q :: Answers(t.cache[key].page, t.rows, key, q) {
      if key == KeyOf(r) {
        assert Answers(t.cache[key].page, t.rows, key, r);
      } else {
        var q :| Answers(s.cache[key].page, s.rows, key, q);
        assert Answers(t.cache[key].page, t.rows, key, q);
      }
    }
  }

  lemma {:induction false} StepKeepsCoherent(s: State, e: Event)
    requires Coherent(s) && Valid(e)
    ensures Coherent(After(s, e))
  {
    match e
    case Create(tenant, fields) =>
      MoreSameForOthers(s.rows, Customer(tenant, fields, true));
      WriteKeepsCoherent(s, s.rows + [Customer(tenant, fields, true)], tenant);
    case Update(tenant, id, patch) =>
      if Known(s, tenant, id) {
        var c := s.rows[id].(fields := Patched(s.rows[id].fields, patch));
        ChangeSameForOthers(s.rows, id, c);
        WriteKeepsCoherent(s, s.rows[id := c], tenant);
      }
    case Remove(tenant, id, pending) =>
      if Known(s, tenant, id) {
        var c := s.rows[id].(active := false);
        ChangeSameForOthers(s.rows, id, c);
        WriteKeepsCoherent(s, s.rows[id := c], tenant);
      }
    case FindAll(r) =>
      if Skip(r) >= 0 {
        FindKeepsCoherent(s, r);
      }
    case Wait(seconds) =>
      forall key | key in s.cache ensures exists r :: Answers(s.cache[key].page, s.rows, key, r) {
      }
  }

  ghost predicate IsRun(states: seq<State>, events: seq<Event>) {
    && |states| == |events| + 1
    && forall k :: 0 <= k < |events| ==> Valid(events[k]) && states[k + 1] == After(states[k], events[k])
  }

  lemma {:induction false} NextIsCoherent(s: State, e: Event, t: State)
    requires Coherent(s) && Valid(e) && t == After(s, e)
    ensures Coherent(t)
  {
    StepKeepsCoherent(s, e);
  }

  lemma {:induction false} RunCoherent(states: seq<State>, events: seq<Event>, k: nat)
    requires IsRun(states, events) && states[0] == START && k < |states|
    ensures Coherent(states[k])
  {
    if k > 0 {
      RunCoherent(states, events, k - 1);
      NextIsCoherent(states[k - 1], events[k - 1], states[k]);
    } else {
    }
  }

  /** In every run, a listing answers exactly what the direct query would at that moment. */
  lemma {:induction false} ListingIsDirect(states: seq<State>, events: seq<Event>, k: nat, r: Request)
    requires IsRun(states, events) && states[0] == START && k < |states| && IsRequest(r)
    ensures Answer(states[k], FindAll(r)) == Direct(states[k].rows, r)
  {
    RunCoherent(states, events, k);
    if KeyOf(r) in states[k].cache {
      CoherentAt(states[k], r);
    }
  }

  /** A write that is done clears the listings of its tenant and no others. */
  lemma {:induction false} WriteClearsOwn(s: State, e: Event, r: Request)
    requires Valid(e) && (e.Create? || e.Update? || e.Remove?) && Answer(s, e) == Done && IsRequest(r)
    ensures var key, t := KeyOf(r), After(s, e);
            && (key in t.cache <==> key in s.cache && r.tenant != e.tenant)
            && (key in t.cache ==> t.cache[key] == s.cache[key])
  {
    PrefixIsOwn(e.tenant, r);
  }

  // ----- Paging -----

  lemma {:induction false} Product(a: int, b: nat)
    ensures a * b < 0 <==> a < 0 && b > 0
  {
    if a < 0 && b > 0 {
      assert a * b <= -1 * b;
    }
  }

  /** In every run a listing is refused exactly for a page before the first, with a limit. */
  lemma {:induction false} RefusedExactly(states: seq<State>, events: seq<Event>, k: nat, r: Request)
    requires IsRun(states, events) && states[0] == START && k < |states| && IsRequest(r)
    ensures Answer(states[k], FindAll(r)) == Rejected <==> r.page < 1 && r.limit > 0
  {
    ListingIsDirect(states, events, k, r);
    Product(r.page - 1, r.limit);
  }

  lemma {:induction false} SkipNotNegative(page: nat, limit: nat)
    requires page >= 1
    ensures (page - 1) * limit >= 0
  {}

  /** The first pages one after another. */
  function Pages(rows: seq<Customer>, tenant: string, search: string, limit: nat, pages: nat): seq<Customer>
  {
    if pages == 0 then []
    else
      SkipNotNegative(pages, limit);
      Pages(rows, tenant, search, limit, pages - 1) + Query(rows, Request(tenant, search, pages, limit)).data
  }

  lemma {:induction false} PagesArePrefix(rows: seq<Customer>, tenant: string, search: string, limit: nat, pages: nat)
    ensures var all := Listed(rows, tenant, search);
            Pages(rows, tenant, search, limit, pages) == all[..UpTo(pages * limit, |all|)]
    decreases pages
  {
    if pages > 0 {
      PagesArePrefix(rows, tenant, search, limit, pages - 1);
      OnePageMore(Listed(rows, tenant, search), pages, limit);
    } else {
      assert 0 * limit == 0;
    }
  }

  lemma {:induction false} OnePageMore<T>(all: seq<T>, pages: nat, limit: nat)
    requires pages > 0
    ensures all[..UpTo((pages - 1) * limit, |all|)] + Slice(all, (pages - 1) * limit, limit) ==
        all[..UpTo(pages * limit, |all|)]
  {
    var skip := (pages - 1) * limit;
    assert pages * limit == skip + limit;
    NextPage(all, skip, limit);
  }

  lemma {:induction false} NextPage<T>(all: seq<T>, skip: nat, limit: nat)
    ensures all[..UpTo(skip, |all|)] + Slice(all, skip, limit) == all[..UpTo(skip + limit, |all|)]
  {}

  lemma {:induction false} PagesSuffice(total: nat, limit: nat)
    requires limit >= 1
    ensures TotalPages(total, limit).Some? && TotalPages(total, limit).value * limit >= total
    ensures total > 0 ==> (TotalPages(total, limit).value - 1) * limit < total
  {
    var pages := TotalPages(total, limit).value;
    assert total + limit - 1 == pages * limit + (total + limit - 1) % limit;
    assert (pages - 1) * limit == pages * limit - limit;
  }

  /** A listing with a limit gives the number of pages, and pages 1 to that number put together are
      the whole filtered list. */
  lemma {:induction false} PagesMakeUpTheList(rows: seq<Customer>, r: Request)
    requires Skip(r) >= 0 && r.limit >= 1
    ensures var pages := Query(rows, r).totalPages;
            pages.Some? && Pages(rows, r.tenant, r.search, r.limit, pages.value) == Listed(rows, r.tenant, r.search)
  {
    var all := Listed(rows, r.tenant, r.search);
    PagesSuffice(|all|, r.limit);
    PagesArePrefix(rows, r.tenant, r.search, r.limit, TotalPages(|all|, r.limit).value);
  }
}
