/** What the customer list shows, in terms of the rows of the table, and what the writes do to them. */
module CustomerList {
  import opened Options
  import opened CustomerCache

  // ----- Searching -----

  /** The same character, or the same letter in the other case. */
  predicate SameLetter(c: char, d: char) {
    c == d || ('A' <= c <= 'Z' && d as int == c as int + 32) || ('A' <= d <= 'Z' && c as int == d as int + 32)
  }

  lemma {:induction false} FoldedAlike(c: char, d: char)
    ensures Lower(c) == Lower(d) <==> SameLetter(c, d)
  {}

  /** From this place on, the text spells the part. */
  ghost predicate SpellsAt(text: string, part: string, k: nat) {
    k + |part| <= |text| && forall i :: 0 <= i < |part| ==> SameLetter(part[i], text[k + i])
  }

  lemma {:induction false} PrefixSpells(text: string, part: string, k: nat)
    requires k <= |text|
    ensures Folded(part) <= Folded(text[k..]) <==> SpellsAt(text, part, k)
  {
    forall i: nat, j: nat | i < |part| && j < |text| ensures Lower(part[i]) == Lower(text[j]) <==>
        SameLetter(part[i], text[j])
    {
      FoldedAlike(part[i], text[j]);
    }
    if SpellsAt(text, part, k) {
      assert forall i :: 0 <= i < |part| ==> Folded(part)[i] == Folded(text[k..])[i];
    } else if k + |part| <= |text| {
      var i :| 0 <= i < |part| && !SameLetter(part[i], text[k + i]);
      assert Folded(part)[i] != Folded(text[k..])[i];
    }
  }

  /** A text contains another if it spells it somewhere, whatever the case of the letters. */
  lemma {:induction false} ContainsExactly(text: string, part: string)
    ensures Contains(text, part) <==> exists k :: SpellsAt(text, part, k)
  {
    if Contains(text, part) {
      var k :| 0 <= k <= |text| && Folded(part) <= Folded(text[k..]);
      PrefixSpells(text, part, k);
    }
    if k: nat :| SpellsAt(text, part, k) {
      PrefixSpells(text, part, k);
      assert Folded(part) <= Folded(text[k..]);
    }
  }

  // ----- The list -----

  /** An active customer of the tenant, whose name, phone, e-mail or GSTIN contains the search text. */
  ghost predicate Shown(c: Customer, tenant: string, search: string) {
    && c.tenant == tenant && c.active
    && (search == "" || Contains(c.fields.name, search) || Contains(c.fields.phone, search)
        || Contains(c.fields.email, search) || Contains(c.fields.gstin, search))
  }

  /** Each entry of the list is the row of its id, and to be shown. */
  ghost predicate Taken(rows: seq<Customer>, tenant: string, search: string, list: seq<Customer>, ids: seq<nat>) {
    && |ids| == |list|
    && forall n :: 0 <= n < |ids| ==> ids[n] < |rows| && list[n] == rows[ids[n]] && Shown(list[n], tenant, search)
  }

  ghost predicate NewestFirst(ids: seq<nat>) {
    forall m, n :: 0 <= m < n < |ids| ==> ids[m] > ids[n]
  }

  ghost predicate NoneMissing(rows: seq<Customer>, tenant: string, search: string, ids: seq<nat>) {
    forall id :: 0 <= id < |rows| && Shown(rows[id], tenant, search) ==> id in ids
  }

  /** The rows of the table behind a list: newest first, all of those to show and no others. */
  ghost predicate Behind(rows: seq<Customer>, tenant: string, search: string, list: seq<Customer>, ids: seq<nat>) {
    Taken(rows, tenant, search, list, ids) && NewestFirst(ids) && NoneMissing(rows, tenant, search, ids)
  }

  lemma {:induction false} ListedExactly(rows: seq<Customer>, tenant: string, search: string) returns (ids: seq<nat>)
    ensures Behind(rows, tenant, search, Listed(rows, tenant, search), ids)
    decreases |rows|
  {
    if rows == [] {
      ids := [];
    } else {
      var before, last := rows[..|rows| - 1], rows[|rows| - 1];
      var rest := ListedExactly(before, tenant, search);
      assert rows == before + [last];
      if Visible(last, tenant, search) {
        ids := [|before|] + rest;
        ShownRow(before, last, tenant, search, Listed(before, tenant, search), rest);
      } else {
        ids := rest;
        OtherRow(before, last, tenant, search, Listed(before, tenant, search), rest);
      }
    }
  }

  lemma {:induction false} ShownRow(rows: seq<Customer>, c: Customer, tenant: string, search: string,
          list: seq<Customer>, ids: seq<nat>)
    requires Behind(rows, tenant, search, list, ids) && Shown(c, tenant, search)
    ensures Behind(rows + [c], tenant, search, [c] + list, [|rows|] + ids)
  {
    var all, more := [c] + list, [|rows|] + ids;
    forall n | 0 <= n < |more|
      ensures more[n] < |rows + [c]| && all[n] == (rows + [c])[more[n]] && Shown(all[n], tenant, search)
    {
      if n > 0 {
        assert more[n] == ids[n - 1] && all[n] == list[n - 1];
      }
    }
    forall m, n | 0 <= m < n < |more| ensures more[m] > more[n] {
      assert more[n] == ids[n - 1];
      if m > 0 {
        assert more[m] == ids[m - 1];
      }
    }
    forall id | 0 <= id < |rows + [c]| && Shown((rows + [c])[id], tenant, search) ensures id in more {
      if id < |rows| {
        assert (rows + [c])[id] == rows[id] && id in ids;
      } else {
        assert more[0] == id;
      }
    }
  }

  lemma {:induction false} OtherRow(rows: seq<Customer>, c: Customer, tenant: string, search: string,
          list: seq<Customer>, ids: seq<nat>)
    requires Behind(rows, tenant, search, list, ids) && !Shown(c, tenant, search)
    ensures Behind(rows + [c], tenant, search, [] + list, ids)
  {
    assert [] + list == list;
    forall id | 0 <= id < |rows + [c]| && Shown((rows + [c])[id], tenant, search) ensures id in ids {
      assert (rows + [c])[id] == rows[id];
    }
  }

  /** A page holds the customers of the list from its first one on, up to its limit. */
  lemma {:induction false} PageInFigures(rows: seq<Customer>, r: Request)
    requires (r.page - 1) * r.limit >= 0
    ensures var page, list, skip := Query(rows, r), Listed(rows, r.tenant, r.search), (r.page - 1) * r.limit;
            && page.total == |list| && page.page == r.page && page.limit == r.limit
            && |page.data| <= r.limit && (|page.data| < r.limit ==> skip + |page.data| >= |list|)
            && forall n :: 0 <= n < |page.data| ==> skip + n < |list| && page.data[n] == list[skip + n]
  {}

  // ----- The writes -----

  /** A new customer is active and comes last; a patch changes the fields that it gives, and a removal
      makes the customer inactive. What is refused changes nothing. */
  lemma {:induction false} RowsInFigures(s: State, e: Event)
    requires Valid(e)
    ensures e.Create? ==> Answer(s, e) == Done && After(s, e).rows == s.rows + [Customer(e.tenant, e.fields, true)]
    ensures e.Update? ==>
              var known := e.id < |s.rows| && s.rows[e.id].tenant == e.tenant && s.rows[e.id].active;
              && (Answer(s, e) == if known then Done else NotFound)
              && (!known ==> After(s, e) == s)
              && (known ==>
                    var c, p := s.rows[e.id], e.patch;
                    After(s, e).rows == s.rows[e.id := Customer(c.tenant, Fields(
                      if p.name.Some? then p.name.value else c.fields.name,
                      if p.phone.Some? then p.phone.value else c.fields.phone,
                      if p.email.Some? then p.email.value else c.fields.email,
                      if p.gstin.Some? then p.gstin.value else c.fields.gstin), true)])
    ensures e.Remove? ==>
              var known := e.id < |s.rows| && s.rows[e.id].tenant == e.tenant && s.rows[e.id].active;
              && (Answer(s, e) == if !known then NotFound else if e.pendingInvoices > 0 then BadRequest else Done)
              && (Answer(s, e) != Done ==> After(s, e) == s)
              && (Answer(s, e) == Done ==>
                    After(s, e).rows == s.rows[e.id := Customer(s.rows[e.id].tenant, s.rows[e.id].fields, false)])
    ensures e.FindAll? || e.Wait? ==> After(s, e).rows == s.rows
  {}

  /** A listing that was queried is answered from the cache for five minutes. */
  lemma {:induction false} CachedFiveMinutes(s: State, r: Request, seconds: nat)
    requires IsRequest(r) && !Cached(s, KeyOf(r)) && (r.page - 1) * r.limit >= 0
    ensures Cached(After(After(s, FindAll(r)), Wait(seconds)), KeyOf(r)) <==> seconds < 300
  {}
}
