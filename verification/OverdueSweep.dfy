/** The worker's overdue sweep under its retry loop. Any call of an attempt may fail, and other
    events of the ledger come in between the attempts and between the rows of an attempt. */
module OverdueSweep {
  import opened Options
  import opened InvoiceLedger
  import opened SweepLog

  /** Where an attempt fails, if it does: at its query, or in the given turn of its row loop
      at the update, at queueing the reminder, or at queueing the notification. */
  datatype Call = Query | UpdateRow | QueueReminder | QueueNotice

  datatype Fault = NoFault | Fails(turn: nat, call: Call)

  predicate Hits(f: Fault, turn: nat, call: Call) {
    f == Fails(turn, call)
  }

  ghost predicate AllValid(events: seq<Event>) {
    forall n :: 0 <= n < |events| ==> Valid(events[n])
  }

  /** What meets an attempt: when it queries, where it fails, what others do before each of its
      turns, and what they do in the wait after it. */
  datatype Course = Course(now: int, fault: Fault, during: seq<seq<Event>>, afterwards: seq<Event>)

  ghost predicate ValidCourse(c: Course) {
    AllValid(c.afterwards) && forall n :: 0 <= n < |c.during| ==> AllValid(c.during[n])
  }

  /** The attempts of a job, one after another. */
  ghost predicate ValidCourses(courses: seq<Course>) {
    && (forall n :: 0 <= n < |courses| ==> ValidCourse(courses[n]))
    && forall n :: 0 < n < |courses| ==> courses[n - 1].now <= courses[n].now
  }

  function BeforeTurn(during: seq<seq<Event>>, n: nat): seq<Event> {
    if n < |during| then during[n] else []
  }

  /** What others did before the first n turns. */
  ghost function Joined(during: seq<seq<Event>>, n: nat): seq<Event> {
    if n == 0 then [] else Joined(during, n - 1) + BeforeTurn(during, n - 1)
  }

  /** What others did during the first k attempts, of so many turns, and in the waits between them. */
  ghost function Happened(courses: seq<Course>, turns: seq<nat>, k: nat): seq<Event>
    requires k <= |turns| <= |courses|
    decreases k, 0
  {
    if k == 0 then [] else Waited(courses, turns, k - 1) + Joined(courses[k - 1].during, turns[k - 1])
  }

  /** And in the wait after the last of them. */
  ghost function Waited(courses: seq<Course>, turns: seq<nat>, k: nat): seq<Event>
    requires k <= |turns| <= |courses|
    decreases k, 1
  {
    if k == 0 then [] else Happened(courses, turns, k) + courses[k - 1].afterwards
  }

  lemma {:induction false} OneFurther(before: seq<Event>, events: seq<Event>, n: nat)
    requires n < |events|
    ensures before + events[..n] + [events[n]] == before + events[..n + 1]
  {}

  lemma {:induction false} TurnFurther(before: seq<Event>, during: seq<seq<Event>>, n: nat)
    ensures before + Joined(during, n) + BeforeTurn(during, n) == before + Joined(during, n + 1)
  {}

  lemma {:induction false} HappenedAlike(courses: seq<Course>, turns: seq<nat>, more: seq<nat>, k: nat)
    requires k <= |turns| <= |more| <= |courses| && turns == more[..|turns|]
    ensures Happened(courses, turns, k) == Happened(courses, more, k)
    ensures Waited(courses, turns, k) == Waited(courses, more, k)
  {
    if k > 0 {
      HappenedAlike(courses, turns, more, k - 1);
      assert turns[k - 1] == more[k - 1];
    } else {
    }
  }

  /** The next attempt, after the first ones and their waits. */
  lemma {:induction false} HappenedNext(courses: seq<Course>, turns: seq<nat>, n: nat)
    requires |turns| < |courses|
    ensures Happened(courses, turns + [n], |turns| + 1) ==
            Waited(courses, turns, |turns|) + Joined(courses[|turns|].during, n)
  {
    HappenedAlike(courses, turns, turns + [n], |turns|);
  }

  /** The rows of a query that have been updated, and those that are left. */
  ghost predicate Taken(due: set<nat>, ids: seq<nat>, rest: set<nat>) {
    AsSet(ids) + rest == due && Distinct(ids) && forall id :: id in rest ==> id !in ids
  }

  lemma {:induction false} TakenNext(due: set<nat>, ids: seq<nat>, rest: set<nat>, id: nat)
    requires Taken(due, ids, rest) && id in rest
    ensures Taken(due, ids + [id], rest - {id})
  {
    DistinctAppend(ids, id);
    assert AsSet(ids + [id]) == AsSet(ids) + {id};
  }

  /** An attempt so far: what others did before its turns, and which of its rows it has moved. */
  ghost predicate Underway(c: Course, others: seq<Event>, moves: seq<nat>, due: set<nat>, ids: seq<nat>, turn: nat,
                           start: State, log: seq<Entry>) {
    && QueriedUpTo(log, c.now) && LastQuery(log) == Some(c.now)
    && Others(log) == others + Joined(c.during, turn) && Moves(log) == moves + ids
    && Taken(due, ids, Open(start, log))
  }

  lemma {:induction false} UnderwayAtFirst(c: Course, others: seq<Event>, moves: seq<nat>, due: set<nat>,
          start: State, log: seq<Entry>)
    requires QueriedUpTo(log, c.now) && LastQuery(log) == Some(c.now)
    requires Others(log) == others && Moves(log) == moves && Open(start, log) == due
    ensures Underway(c, others, moves, due, [], 0, start, log)
  {
    assert others + [] == others && moves + [] == moves && AsSet([]) + due == due;
  }

  lemma {:induction false} UnderwayAtLast(c: Course, others: seq<Event>, moves: seq<nat>, due: set<nat>, ids: seq<nat>,
          turn: nat, start: State, log: seq<Entry>)
    requires Underway(c, others, moves, due, ids, turn, start, log)
    ensures AsSet(ids) <= due && Distinct(ids) && (Open(start, log) == {} ==> AsSet(ids) == due)
    ensures LastQuery(log) == Some(c.now)
  {
    if Open(start, log) == {} {
      assert AsSet(ids) + {} == AsSet(ids);
    }
  }

  lemma {:induction false} UnderwayNext(c: Course, others: seq<Event>, moves: seq<nat>, due: set<nat>, ids: seq<nat>,
          turn: nat, start: State, log: seq<Entry>, next: seq<Entry>, id: nat, moved: bool)
    requires Underway(c, others, moves, due, ids, turn, start, log) && id in Open(start, log)
    requires QueriedUpTo(next, c.now) && LastQuery(next) == LastQuery(log)
    requires Others(next) == Others(log) + BeforeTurn(c.during, turn)
    requires Moves(next) == Moves(log) + if moved then [id] else []
    requires Open(start, next) == Open(start, log) - if moved then {id} else {}
    ensures Underway(c, others, moves, due, if moved then ids + [id] else ids, turn + 1, start, next)
  {
    TurnFurther(others, c.during, turn);
    TakenNext(due, ids, Open(start, log), id);
    if moved {
      assert moves + ids + [id] == moves + (ids + [id]);
    } else {
      assert Open(start, next) == Open(start, log) && Moves(next) == Moves(log);
    }
  }

  class Sweep {
    var db: State
    var overdueCount: nat
    var reminders: seq<nat>
    var notices: seq<nat>
    const withPhone: set<nat>
    ghost const start: State
    ghost var log: seq<Entry>
    ghost var unreminded: multiset<nat>
    ghost var unnotified: multiset<nat>

    constructor (db: State, withPhone: set<nat>)
      ensures this.db == start == db && this.withPhone == withPhone && Valid()
      ensures log == [] && unreminded == unnotified == multiset{}
    {
      this.db, this.withPhone, start := db, withPhone, db;
      overdueCount, reminders, notices := 0, [], [];
      log, unreminded, unnotified := [], multiset{}, multiset{};
    }

    ghost predicate Valid()
      reads this
    {
      && IsLog(start, log) && db == Replayed(start, log)
      && Books(withPhone, Moves(log), overdueCount, reminders, notices, unreminded, unnotified)
    }

    method Step(e: Event)
      requires Valid() && InvoiceLedger.Valid(e)
      modifies `db, `log
      ensures Valid() && log == old(log) + [Other(e)] && Open(start, log) == old(Open(start, log))
      ensures Others(log) == old(Others(log)) + [e] && LastQuery(log) == old(LastQuery(log))
      ensures Moves(log) == old(Moves(log))
    {
      OneMore(start, log, Other(e));
      db := After(db, e);
      log := log + [Other(e)];
    }

    /** What others do. */
    method Meanwhile(events: seq<Event>, ghost now: int)
      requires Valid() && AllValid(events) && QueriedUpTo(log, now)
      modifies `db, `log
      ensures Valid() && QueriedUpTo(log, now) && Open(start, log) == old(Open(start, log))
      ensures Others(log) == old(Others(log)) + events && LastQuery(log) == old(LastQuery(log))
      ensures Moves(log) == old(Moves(log))
    {
      ghost var others, open, last, moves := Others(log), Open(start, log), LastQuery(log), Moves(log);
      for n := 0 to |events|
        invariant Valid() && QueriedUpTo(log, now) && Open(start, log) == open
        invariant Others(log) == others + events[..n] && LastQuery(log) == last && Moves(log) == moves
      {
        Step(events[n]);
        OneFurther(others, events, n);
      }
      assert events[..|events|] == events;
    }

    /** One turn of the row loop: the update, whatever the status is by then, the reminder if there
        is a phone, the notification. An invoice that was moved loses what comes after a failure. */
    method Turn(id: nat, turn: nat, fault: Fault) returns (ok: bool, ghost moved: bool)
      requires Valid() && id in Open(start, log)
      modifies this
      ensures Valid() && (ok ==> moved)
      ensures moved ==> log == old(log) + [Own(id)] && db == MarkedOverdue(old(db), id)
      ensures !moved ==> log == old(log) && db == old(db)
      ensures Others(log) == old(Others(log)) && LastQuery(log) == old(LastQuery(log))
      ensures Moves(log) == old(Moves(log)) + if moved then [id] else []
      ensures Open(start, log) == old(Open(start, log)) - if moved then {id} else {}
      ensures |unnotified| <= |old(unnotified)| + if ok then 0 else 1
    {
      if Hits(fault, turn, UpdateRow) {
        return false, false;
      }
      moved := true;
      OneMore(start, log, Own(id));
      if id in db.invoices {
        db := db.(invoices := db.invoices[id := db.invoices[id].(status := OVERDUE)]);
      }
      log := log + [Own(id)];
      ok := Tell(Moves(old(log)), id, turn, fault);
    }

    /** The count and the two messages of an invoice that was just moved. */
    method Tell(ghost before: seq<nat>, id: nat, turn: nat, fault: Fault) returns (ok: bool)
      requires Books(withPhone, before, overdueCount, reminders, notices, unreminded, unnotified)
      modifies `overdueCount, `reminders, `notices, `unreminded, `unnotified
      ensures Books(withPhone, before + [id], overdueCount, reminders, notices, unreminded, unnotified)
      ensures |unnotified| <= |old(unnotified)| + if ok then 0 else 1
    {
      BooksTold(withPhone, before, overdueCount, reminders, notices, unreminded, unnotified, id);
      BooksUnnotified(withPhone, before, overdueCount, reminders, notices, unreminded, unnotified, id);
      if id in withPhone {
        BooksUnreminded(withPhone, before, overdueCount, reminders, notices, unreminded, unnotified, id);
      }
      overdueCount := overdueCount + 1;
      if id in withPhone {
        if Hits(fault, turn, QueueReminder) {
          unreminded, unnotified := unreminded + multiset{id}, unnotified + multiset{id};
          return false;
        }
        reminders := reminders + [id];
      }
      if Hits(fault, turn, QueueNotice) {
        unnotified := unnotified + multiset{id};
        return false;
      }
      notices := notices + [id];
      ok := true;
    }

    method BeforeRow(turn: nat, c: Course)
      requires Valid() && ValidCourse(c) && QueriedUpTo(log, c.now)
      modifies `db, `log
      ensures Valid() && QueriedUpTo(log, c.now) && Open(start, log) == old(Open(start, log))
      ensures Others(log) == old(Others(log)) + BeforeTurn(c.during, turn)
      ensures LastQuery(log) == old(LastQuery(log)) && Moves(log) == old(Moves(log))
    {
      if turn < |c.during| {
        Meanwhile(c.during[turn], c.now);
      }
    }

    /** A turn with what others do before it. */
    method NextTurn(id: nat, turn: nat, c: Course) returns (ok: bool, ghost moved: bool)
      requires Valid() && ValidCourse(c) && id in Open(start, log) && QueriedUpTo(log, c.now)
      modifies this
      ensures Valid() && QueriedUpTo(log, c.now) && (ok ==> moved) && LastQuery(log) == old(LastQuery(log))
      ensures Others(log) == old(Others(log)) + BeforeTurn(c.during, turn)
      ensures Moves(log) == old(Moves(log)) + if moved then [id] else []
      ensures Open(start, log) == old(Open(start, log)) - if moved then {id} else {}
      ensures |unnotified| <= |old(unnotified)| + if ok then 0 else 1
    {
      BeforeRow(turn, c);
      ok, moved := Turn(id, turn, c.fault);
    }

    method RowTurn(id: nat, turn: nat, c: Course, ghost others: seq<Event>, ghost moves: seq<nat>,
            ghost due: set<nat>, ghost ids: seq<nat>) returns (ok: bool, ghost more: seq<nat>)
      requires Valid() && ValidCourse(c) && id in Open(start, log)
      requires Underway(c, others, moves, due, ids, turn, start, log)
      modifies this
      ensures Valid() && Underway(c, others, moves, due, more, turn + 1, start, log)
      ensures ok ==> Open(start, log) == old(Open(start, log)) - {id}
      ensures |unnotified| <= |old(unnotified)| + if ok then 0 else 1
    {
      ghost var moved;
      ok, moved := NextTurn(id, turn, c);
      more := if moved then ids + [id] else ids;
      UnderwayNext(c, others, moves, due, ids, turn, start, old(log), log, id, moved);
    }

    method QueryRows(now: int) returns (rows: set<nat>)
      requires Valid() && QueriedUpTo(log, now)
      modifies `log
      ensures Valid() && QueriedUpTo(log, now) && LastQuery(log) == Some(now)
      ensures rows == Open(start, log) == Due(db.invoices, now)
      ensures Others(log) == old(Others(log)) && Moves(log) == old(Moves(log))
    {
      OneMore(start, log, Queried(now));
      log := log + [Queried(now)];
      rows := set id | id in db.invoices && DueForSweep(db.invoices[id], now);
    }

    /** One attempt: the query, then its rows in any order. It moves only invoices that were due at
        the query, each once, and all of them unless it fails. */
    method Attempt(c: Course) returns (ok: bool, ghost ids: seq<nat>, ghost turns: nat)
      requires Valid() && ValidCourse(c) && QueriedUpTo(log, c.now)
      modifies this
      ensures Valid() && QueriedUpTo(log, c.now)
      ensures Others(log) == old(Others(log)) + Joined(c.during, turns)
      ensures Moves(log) == old(Moves(log)) + ids && Distinct(ids) && AsSet(ids) <= old(Due(db.invoices, c.now))
      ensures ok ==> AsSet(ids) == old(Due(db.invoices, c.now)) && Open(start, log) == {}
                     && LastQuery(log) == Some(c.now)
      ensures |unnotified| <= |old(unnotified)| + if ok then 0 else 1
    {
      ghost var others, moves, due := Others(log), Moves(log), Due(db.invoices, c.now);
      ids, turns := [], 0;
      if Hits(c.fault, 0, Query) {
        return false, ids, turns;
      }
      var rows := QueryRows(c.now);
      UnderwayAtFirst(c, others, moves, due, start, log);
      ok, ids, turns := Rows(rows, c, others, moves, due);
      UnderwayAtLast(c, others, moves, due, ids, turns, start, log);
    }

    /** The row loop. */
    method Rows(rows: set<nat>, c: Course, ghost others: seq<Event>, ghost moves: seq<nat>, ghost due: set<nat>)
      returns (ok: bool, ghost ids: seq<nat>, ghost turns: nat)
      requires Valid() && ValidCourse(c) && rows == Open(start, log)
      requires Underway(c, others, moves, due, [], 0, start, log)
      modifies this
      ensures Valid() && Underway(c, others, moves, due, ids, turns, start, log)
      ensures ok ==> Open(start, log) == {}
      ensures |unnotified| <= |old(unnotified)| + if ok then 0 else 1
    {
      var rest := rows;
      var turn := 0;
      ids := [];
      while rest != {}
        invariant Valid() && Underway(c, others, moves, due, ids, turn, start, log) && rest == Open(start, log)
        invariant |unnotified| <= |old(unnotified)|
        decreases |rest|
      {
        var id :| id in rest;
        ok, ids := RowTurn(id, turn, c, others, moves, due, ids);
        turn := turn + 1;
        if !ok {
          return ok, ids, turn;
        }
        rest := rest - {id};
      }
      return true, ids, turn;
    }

    /** The retry loop: up to three attempts, waiting one and then two seconds in between, while
        others go on. If it returns normally, every row of its last query was updated. */
    method WithRetry(courses: seq<Course>) returns (ok: bool, attempts: nat, waited: nat, ghost turns: seq<nat>)
      requires Valid() && log == [] && unnotified == multiset{}
      requires |courses| == 3 && ValidCourses(courses)
      modifies this
      ensures Valid() && 1 <= attempts <= 3 && |turns| == attempts
      ensures QueriedUpTo(log, courses[attempts - 1].now) && Others(log) == Happened(courses, turns, |turns|)
      ensures if ok then Open(start, log) == {} && LastQuery(log) == Some(courses[attempts - 1].now) else attempts == 3
      ensures |unnotified| <= if ok then attempts - 1 else attempts
      ensures waited == if attempts == 1 then 0 else if attempts == 2 then 1000 else 3000
    {
      var delay := 1000;
      ok, attempts, waited, turns := false, 0, 0, [];
      while true
        invariant Valid() && attempts <= 2 && |unnotified| <= attempts && |turns| == attempts
        invariant QueriedUpTo(log, courses[attempts].now) && Others(log) == Waited(courses, turns, |turns|)
        invariant waited == delay - 1000
        invariant delay == if attempts == 0 then 1000 else if attempts == 1 then 2000 else 4000
        decreases 2 - attempts
      {
        ok, turns := Try(courses, attempts, turns);
        attempts := attempts + 1;
        if ok || attempts == 3 {
          return;
        }
        Wait(courses, attempts, turns);
        waited := waited + delay;
        delay := delay * 2;
      }
    }

    /** What others do in the wait before the next attempt. */
    method Wait(courses: seq<Course>, attempt: nat, ghost turns: seq<nat>)
      requires Valid() && 0 < attempt == |turns| < |courses| && ValidCourses(courses)
      requires QueriedUpTo(log, courses[attempt - 1].now) && Others(log) == Happened(courses, turns, |turns|)
      modifies `db, `log
      ensures Valid() && QueriedUpTo(log, courses[attempt].now) && Others(log) == Waited(courses, turns, |turns|)
    {
      assert ValidCourse(courses[attempt - 1]) && courses[attempt - 1].now <= courses[attempt].now;
      Meanwhile(courses[attempt - 1].afterwards, courses[attempt - 1].now);
    }

    /** What the retry loop needs of an attempt. */
    method Try(courses: seq<Course>, attempt: nat, ghost turns: seq<nat>) returns (ok: bool, ghost more: seq<nat>)
      requires Valid() && attempt == |turns| < |courses| && ValidCourses(courses)
      requires QueriedUpTo(log, courses[attempt].now) && Others(log) == Waited(courses, turns, |turns|)
      modifies this
      ensures Valid() && |more| == attempt + 1 && QueriedUpTo(log, courses[attempt].now)
      ensures Others(log) == Happened(courses, more, |more|)
      ensures ok ==> Open(start, log) == {} && LastQuery(log) == Some(courses[attempt].now)
      ensures |unnotified| <= |old(unnotified)| + if ok then 0 else 1
    {
      ghost var ids, n;
      ok, ids, n := Attempt(courses[attempt]);
      more := turns + [n];
      HappenedNext(courses, turns, n);
    }
  }
}
