/** Period locks against the set of closed (day, domain) pairs
    (Backend/backend/period_controls.py). */
module PeriodLocks {
  import opened TextOrder

  type Id = string

  datatype Option<+T> = None | Some(value: T)

  // ------------------------------------------------------------------ dates

  datatype Date = Date(year: nat, month: nat, day: nat)

  predicate IsLeap(year: nat) { year % 4 == 0 && (year % 100 != 0 || year % 400 == 0) }

  function DaysIn(year: nat, month: nat): nat {
    if month == 2 then (if IsLeap(year) then 29 else 28)
    else if month in {4, 6, 9, 11} then 30 else 31
  }

  /** What `datetime.date` admits. */
  predicate ValidDate(d: Date) {
    1 <= d.year <= 9999 && 1 <= d.month <= 12 && 1 <= d.day <= DaysIn(d.year, d.month)
  }

  /** Calendar order. */
  predicate Earlier(a: Date, b: Date) {
    a.year < b.year || (a.year == b.year && (a.month < b.month || (a.month == b.month && a.day < b.day)))
  }

  function Digit(n: nat): char
    requires n < 10
  {
    ('0' as int + n) as char
  }

  function Pad2(n: nat): (s: string)
    requires n < 100
    ensures |s| == 2
  {
    [Digit(n / 10), Digit(n % 10)]
  }

  /** `date.isoformat`. */
  function Iso(d: Date): string
    requires ValidDate(d)
  {
    Pad2(d.year / 100) + (Pad2(d.year % 100) + ("-" + (Pad2(d.month) + ("-" + Pad2(d.day)))))
  }

  lemma Pad2Order(a: nat, b: nat)
    requires a < 100 && b < 100
    ensures Before(Pad2(a), Pad2(b)) <==> a < b
    ensures Pad2(a) == Pad2(b) <==> a == b
  {
    var x, y := Pad2(a), Pad2(b);
    assert Before(x[1..], y[1..]) <==> a % 10 < b % 10 by {
      assert Before(x[1..][1..], y[1..][1..]) == false;
    }
    assert x[0] == y[0] <==> a / 10 == b / 10;
    assert x[1] == y[1] <==> a % 10 == b % 10;
  }

  lemma DashFirst(a: string, b: string)
    ensures Before("-" + a, "-" + b) <==> Before(a, b)
  {
    BeforeAppend("-", "-", a, b);
    Irreflexive("-");
  }

  /** String order on normalised dates is calendar order. */
  lemma IsoOrderIsCalendarOrder(a: Date, b: Date)
    requires ValidDate(a) && ValidDate(b)
    ensures Before(Iso(a), Iso(b)) <==> Earlier(a, b)
  {
    hide Before, Pad2;
    var c, d := a.year / 100, b.year / 100;
    var e, f := a.year % 100, b.year % 100;
    Pad2Order(a.day, b.day);
    Pad2Order(a.month, b.month);
    Pad2Order(e, f);
    Pad2Order(c, d);
    DashFirst(Pad2(a.day), Pad2(b.day));
    BeforeAppend(Pad2(a.month), Pad2(b.month), "-" + Pad2(a.day), "-" + Pad2(b.day));
    DashFirst(Pad2(a.month) + ("-" + Pad2(a.day)), Pad2(b.month) + ("-" + Pad2(b.day)));
    var g, h := "-" + (Pad2(a.month) + ("-" + Pad2(a.day))), "-" + (Pad2(b.month) + ("-" + Pad2(b.day)));
    BeforeAppend(Pad2(e), Pad2(f), g, h);
    BeforeAppend(Pad2(c), Pad2(d), Pad2(e) + g, Pad2(f) + h);
  }

  // ------------------------------------------------------------------ locks

  datatype Domain = Accounting | Tax
  datatype Kind = ACCOUNTING | TAX | BOTH

  datatype Lock = Lock(id: Id, start: string, end: string, kind: Kind, locked: bool, unlockedBy: Option<Id>)

  datatype ApprovalStatus = PENDING | APPROVED | REJECTED
  datatype Approval = Approval(action: string, entityType: string, entity: Id, status: ApprovalStatus)

  datatype Reply = Refused(code: nat) | Done | Pending(approval: Id)

  predicate InScope(k: Kind, d: Domain) { k == BOTH || (k == ACCOUNTING && d == Accounting) || (k == TAX && d == Tax) }

  /** `_scope_conflicts`. */
  predicate ScopeConflicts(
    existing: Kind, proposed: Kind) { existing == BOTH || proposed == BOTH || existing == proposed }

  /** Python's `<=` on these strings. */
  predicate UpTo(a: string, b: string) { !Before(b, a) }

  /** A LOCKED row that answers a lookup. */
  predicate Answers(l: Lock, day: string, d: Domain) {
    l.locked && UpTo(l.start, day) && UpTo(day, l.end) && InScope(l.kind, d)
  }

  /** `active_period_lock`: the first such row, in whatever order the rows come. */
  function ActiveLock(rows: seq<Lock>, day: string, d: Domain): Option<Lock> {
    if |rows| == 0 then None
    else if Answers(rows[0], day, d) then Some(rows[0])
    else ActiveLock(rows[1..], day, d)
  }

  predicate Overlaps(l: Lock, start: string, end: string, kind: Kind) {
    l.locked && UpTo(l.start, end) && UpTo(start, l.end) && ScopeConflicts(l.kind, kind)
  }

  /** `create_lock`; the days are None when they do not parse, the kind when it is unknown. */
  function CreateLock(rows: seq<Lock>, start: Option<Date>, end: Option<Date>, kind: Option<Kind>,
                      id: Id): (seq<Lock>, Reply)
    requires start.Some? ==> ValidDate(start.value)
    requires end.Some? ==> ValidDate(end.value)
  {
    if start.None? || end.None? || Before(Iso(end.value), Iso(start.value)) then (rows, Refused(422))
    else if kind.None? then (rows, Refused(422))
    else if exists i :: 0 <= i < |rows| && Overlaps(rows[i], Iso(start.value), Iso(end.value), kind.value) then (rows, Refused(409))
    else (rows + [Lock(id, Iso(start.value), Iso(end.value), kind.value, true, None)], Done)
  }

  function IndexOf(rows: seq<Lock>, id: Id): (n: nat)
    ensures n <= |rows|
    ensures n < |rows| ==> rows[n].id == id
    ensures forall i :: 0 <= i < n ==> rows[i].id != id
  {
    if |rows| == 0 then 0 else if rows[0].id == id then 0 else IndexOf(rows[1..], id) + 1
  }

  predicate IsUnlock(a: Approval, lock: Id) {
    a.action == "ACCOUNTING_PERIOD_UNLOCK" && a.entityType == "accounting_period_lock" && a.entity == lock
  }

  /** `request_unlock`. */
  function RequestUnlock(rows: seq<Lock>, approvals: map<Id, Approval>, lock: Id, drawn: Id): (map<Id, Approval>,
                                                                                               Reply) {
    var n := IndexOf(rows, lock);
    if n == |rows| then (approvals, Refused(404))
    else if !rows[n].locked then (approvals, Refused(409))
    else if exists a | a in approvals :: IsUnlock(approvals[a], lock) && approvals[a].status == PENDING then (approvals, Done)
    else (approvals[drawn := Approval("ACCOUNTING_PERIOD_UNLOCK", "accounting_period_lock", lock, PENDING)], Done)
  }

  /** `execute_unlock`. */
  function Unlock(rows: seq<Lock>, approvals: map<Id, Approval>, lock: Id, approval: Id): (seq<Lock>, Reply) {
    var n := IndexOf(rows, lock);
    if n == |rows| then (rows, Refused(404))
    else if !rows[n].locked then (rows, Refused(409))
    else if approval !in approvals || approvals[approval].status != APPROVED || !IsUnlock(approvals[approval], lock) then (rows, Refused(409))
    else (rows[n := rows[n].(locked := false, unlockedBy := Some(approval))], Done)
  }

  // ------------------------------------------------------------ closed pairs

  type Pairs = iset<(Date, Domain)>

  predicate Owns(l: Lock, day: Date, d: Domain) { ValidDate(day) && Answers(l, Iso(day), d) }

  ghost function PairsOf(l: Lock): Pairs { iset p: (Date, Domain) | Owns(l, p.0, p.1) }

  /** The simple view: the days closed for each domain. */
  ghost function Closed(rows: seq<Lock>): Pairs {
    iset p: (Date, Domain) | exists i :: 0 <= i < |rows| && Owns(rows[i], p.0, p.1)
  }

  /** The pairs a new lock is asked to close, by the calendar. */
  ghost function Span(start: Date, end: Date, kind: Kind): Pairs {
    iset p: (Date, Domain) | ValidDate(p.0) && !Earlier(p.0, start) && !Earlier(end, p.0) && InScope(kind, p.1)
  }

  ghost predicate IsNormal(l: Lock, start: Date, end: Date) {
    ValidDate(start) && ValidDate(end) && !Earlier(end, start) && l.start == Iso(start) && l.end == Iso(end)
  }

  ghost predicate Normal(l: Lock) { exists s, e :: IsNormal(l, s, e) }

  /** Rows hold normalised dates in order, and LOCKED rows own disjoint pairs. */
  ghost predicate Inv(rows: seq<Lock>) {
    && (forall i :: 0 <= i < |rows| ==> Normal(rows[i]))
    && (forall i, j :: 0 <= i < j < |rows| ==> rows[i].id != rows[j].id)
    && Disjoint(rows)
  }

  ghost predicate Disjoint(rows: seq<Lock>) {
    forall i, j, day, d :: 0 <= i < |rows| && 0 <= j < |rows| && Owns(rows[i], day, d) && Owns(rows[j], day, d) ==> i == j
  }

  lemma OwnsByCalendar(l: Lock, start: Date, end: Date, day: Date, d: Domain)
    requires IsNormal(l, start, end) && ValidDate(day)
    ensures Owns(l, day, d) <==> l.locked && !Earlier(day, start) && !Earlier(end, day) && InScope(l.kind, d)
  {
    IsoOrderIsCalendarOrder(day, start);
    IsoOrderIsCalendarOrder(end, day);
    hide Iso, Before;
  }

  ghost predicate Shares(l: Lock, pairs: Pairs) { exists p: (Date, Domain) :: Owns(l, p.0, p.1) && p in pairs }

  /** The overlap test is right: it fires exactly when some pair would be closed twice. */
  lemma OverlapMeansSharedPair(l: Lock, s: Date, e: Date, start: Date, end: Date, kind: Kind)
    requires IsNormal(l, s, e) && ValidDate(start) && ValidDate(end) && !Earlier(end, start)
    ensures Overlaps(l, Iso(start), Iso(end), kind)
       <==> Shares(l, Span(start, end, kind))
  {
    hide Iso, Before;
    IsoOrderIsCalendarOrder(end, s);
    IsoOrderIsCalendarOrder(e, start);
    if Overlaps(l, Iso(start), Iso(end), kind) {
      var day := if Earlier(s, start) then start else s;
      var d := if l.kind == TAX || kind == TAX then Tax else Accounting;
      OwnsByCalendar(l, s, e, day, d);
      assert Owns(l, (day, d).0, (day, d).1) && (day, d) in Span(start, end, kind);
    }
    if p: (Date, Domain) :| Owns(l, p.0, p.1) && p in Span(start, end, kind) {
      OwnsByCalendar(l, s, e, p.0, p.1);
    }
  }

  // --------------------------------------------------------------- requests

  lemma OneOverlap(l: Lock, start: Date, end: Date, kind: Kind)
    requires Normal(l) && ValidDate(start) && ValidDate(end) && !Earlier(end, start)
    ensures Overlaps(l, Iso(start), Iso(end), kind) <==> Shares(l, Span(start, end, kind))
  {
    hide Overlaps, Shares, IsNormal, Iso, Span;
    var s, e :| IsNormal(l, s, e);
    OverlapMeansSharedPair(l, s, e, start, end, kind);
  }

  lemma SharedIsClosed(rows: seq<Lock>, pairs: Pairs)
    ensures (exists i :: 0 <= i < |rows| && Shares(rows[i], pairs)) <==> exists p :: p in Closed(rows) && p in pairs
  {
    hide Owns;
    if p :| p in Closed(rows) && p in pairs {
      var i :| 0 <= i < |rows| && Owns(rows[i], p.0, p.1);
      assert Shares(rows[i], pairs);
    }
    if i :| 0 <= i < |rows| && Shares(rows[i], pairs) {
      var p: (Date, Domain) :| Owns(rows[i], p.0, p.1) && p in pairs;
      assert p in Closed(rows);
    }
  }

  lemma AnyOverlap(rows: seq<Lock>, start: Date, end: Date, kind: Kind)
    requires Inv(rows) && ValidDate(start) && ValidDate(end) && !Earlier(end, start)
    ensures (exists i :: 0 <= i < |rows| && Overlaps(rows[i], Iso(start), Iso(end), kind))
       <==> exists p :: p in Closed(rows) && p in Span(start, end, kind)
  {
    hide Overlaps, Shares, Normal, Iso, Span, Disjoint, Closed;
    SharedIsClosed(rows, Span(start, end, kind));
    forall i | 0 <= i < |rows|
      ensures Overlaps(rows[i], Iso(start), Iso(end), kind) <==> Shares(rows[i], Span(start, end, kind))
    {
      OneOverlap(rows[i], start, end, kind);
    }
  }

  /** A lock is refused for overlap exactly when a pair it asks for is closed already. */
  lemma CreateRefusedExactly(rows: seq<Lock>, start: Date, end: Date, kind: Kind, id: Id)
    requires Inv(rows) && ValidDate(start) && ValidDate(end) && !Earlier(end, start)
    ensures CreateLock(rows, Some(start), Some(end), Some(kind), id).1 == Refused(409)
       <==> exists p :: p in Closed(rows) && p in Span(start, end, kind)
    ensures CreateLock(rows, Some(start), Some(end), Some(kind), id).1 in {Done, Refused(409)}
  {
    IsoOrderIsCalendarOrder(end, start);
    hide Iso, Before, Overlaps, Inv, Closed, Span;
    AnyOverlap(rows, start, end, kind);
  }

  lemma NewLockOwns(start: Date, end: Date, kind: Kind, id: Id)
    requires ValidDate(start) && ValidDate(end) && !Earlier(end, start)
    ensures var l := Lock(id, Iso(start), Iso(end), kind, true, None);
            IsNormal(l, start, end) && forall day, d :: Owns(l, day, d) <==> (day, d) in Span(start, end, kind)
  {
    var l := Lock(id, Iso(start), Iso(end), kind, true, None);
    hide Iso, Before;
    forall day, d ensures Owns(l, day, d) <==> (day, d) in Span(start, end, kind) {
      if ValidDate(day) {
        OwnsByCalendar(l, start, end, day, d);
      }
    }
  }

  /** A created lock closes exactly its span, none of which was closed before. */
  lemma CreateAddsExactly(rows: seq<Lock>, start: Date, end: Date, kind: Kind, id: Id)
    requires Inv(rows) && ValidDate(start) && ValidDate(end)
    requires CreateLock(rows, Some(start), Some(end), Some(kind), id).1 == Done
    ensures var later := CreateLock(rows, Some(start), Some(end), Some(kind), id).0;
            && Closed(later) == Closed(rows) + Span(start, end, kind)
            && Closed(rows) * Span(start, end, kind) == iset{}
  {
    IsoOrderIsCalendarOrder(end, start);
    CreateRefusedExactly(rows, start, end, kind, id);
    NewLockOwns(start, end, kind, id);
    var l := Lock(id, Iso(start), Iso(end), kind, true, None);
    var later := rows + [l];
    hide Iso, Before, Owns, Span, Inv, Overlaps;
    forall p: (Date, Domain)
      ensures p in Closed(later) <==> p in Closed(rows) || p in Span(start, end, kind)
    {
      ClosedSnoc(rows, l, p);
      assert Owns(l, p.0, p.1) <==> (p.0, p.1) in Span(start, end, kind);
    }
    hide Closed;
    assert Closed(later) == Closed(rows) + Span(start, end, kind);
    assert Closed(rows) * Span(start, end, kind) == iset{};
  }

  lemma ClosedSnoc(rows: seq<Lock>, l: Lock, p: (Date, Domain))
    ensures p in Closed(rows + [l]) <==> p in Closed(rows) || Owns(l, p.0, p.1)
  {
    hide Owns;
    var later := rows + [l];
    if p in Closed(rows) {
      var i :| 0 <= i < |rows| && Owns(rows[i], p.0, p.1);
      assert Owns(later[i], p.0, p.1);
    }
    if Owns(l, p.0, p.1) {
      assert Owns(later[|rows|], p.0, p.1);
    }
  }

  /** A day and domain close only through locks, and unlocking gives back exactly what
      the one lock held. */
  lemma UnlockRemovesExactly(rows: seq<Lock>, approvals: map<Id, Approval>, lock: Id, approval: Id)
    requires Inv(rows) && Unlock(rows, approvals, lock, approval).1 == Done
    ensures var n := IndexOf(rows, lock);
            && n < |rows| && approval in approvals && approvals[approval].status == APPROVED && IsUnlock(approvals[approval], lock)
            && PairsOf(rows[n]) <= Closed(rows)
            && Closed(Unlock(rows, approvals, lock, approval).0) == Closed(rows) - PairsOf(rows[n])
  {
    hide Iso, Before, IsNormal, IsUnlock;
    var n := IndexOf(rows, lock);
    var later := Unlock(rows, approvals, lock, approval).0;
    forall p: (Date, Domain)
      ensures p in Closed(later) <==> p in Closed(rows) && !Owns(rows[n], p.0, p.1)
      ensures Owns(rows[n], p.0, p.1) ==> p in Closed(rows)
    {
      PairAfterUnlock(rows, n, later[n], p);
    }
    hide Closed, Owns;
    assert Closed(later) == Closed(rows) - PairsOf(rows[n]);
  }

  lemma PairAfterUnlock(rows: seq<Lock>, n: nat, open: Lock, p: (Date, Domain))
    requires Disjoint(rows) && n < |rows| && !open.locked
    ensures p in Closed(rows[n := open]) <==> p in Closed(rows) && !Owns(rows[n], p.0, p.1)
    ensures Owns(rows[n], p.0, p.1) ==> p in Closed(rows)
  {
    var later := rows[n := open];
    assert !Owns(open, p.0, p.1);
    hide Owns;
    if i :| 0 <= i < |later| && Owns(later[i], p.0, p.1) {
      assert Owns(rows[i], p.0, p.1);
    }
    if i :| 0 <= i < |rows| && Owns(rows[i], p.0, p.1) {
      if i != n {
        assert Owns(later[i], p.0, p.1);
      }
    }
  }

  lemma CreateKeeps(rows: seq<Lock>, start: Option<Date>, end: Option<Date>, kind: Option<Kind>, id: Id)
    requires start.Some? ==> ValidDate(start.value)
    requires end.Some? ==> ValidDate(end.value)
    requires Inv(rows) && forall i :: 0 <= i < |rows| ==> rows[i].id != id
    ensures Inv(CreateLock(rows, start, end, kind, id).0)
  {
    hide Iso, Before, Overlaps, Owns, IsNormal, Span;
    if CreateLock(rows, start, end, kind, id).1 == Done {
      IsoOrderIsCalendarOrder(end.value, start.value);
      CreateRefusedExactly(rows, start.value, end.value, kind.value, id);
      NewLockOwns(start.value, end.value, kind.value, id);
      var l := Lock(id, Iso(start.value), Iso(end.value), kind.value, true, None);
      assert Normal(l) by { assert IsNormal(l, start.value, end.value); }
      forall i, day, d | 0 <= i < |rows| && Owns(rows[i], day, d) ensures !Owns(l, day, d) {
        assert Owns(rows[i], (day, d).0, (day, d).1);
        assert (day, d) in Closed(rows);
      }
      SnocKeeps(rows, l);
    }
  }

  lemma SnocKeeps(rows: seq<Lock>, l: Lock)
    requires Inv(rows) && Normal(l)
    requires forall i :: 0 <= i < |rows| ==> rows[i].id != l.id
    requires forall i, day, d :: 0 <= i < |rows| && Owns(rows[i], day, d) ==> !Owns(l, day, d)
    ensures Inv(rows + [l])
  {
    hide Owns, Normal;
    var later := rows + [l];
    forall i, j, day, d | 0 <= i < |later| && 0 <= j < |later| && Owns(later[i], day, d) && Owns(later[j], day, d) ensures i == j {
      if i < |rows| { assert Owns(rows[i], day, d); }
      if j < |rows| { assert Owns(rows[j], day, d); }
    }
  }

  lemma UnlockKeeps(rows: seq<Lock>, approvals: map<Id, Approval>, lock: Id, approval: Id)
    requires Inv(rows)
    ensures Inv(Unlock(rows, approvals, lock, approval).0)
  {
    hide IsUnlock;
    if Unlock(rows, approvals, lock, approval).1 == Done {
      var n := IndexOf(rows, lock);
      OpenKeeps(rows, n, rows[n].(locked := false, unlockedBy := Some(approval)));
    }
  }

  lemma OpenKeeps(rows: seq<Lock>, n: nat, open: Lock)
    requires Inv(rows) && n < |rows| && !open.locked
    requires open.id == rows[n].id && open.start == rows[n].start && open.end == rows[n].end
    ensures Inv(rows[n := open])
  {
    hide Iso, Before;
    var later := rows[n := open];
    assert Normal(rows[n]);
    var s, e :| IsNormal(rows[n], s, e);
    assert IsNormal(open, s, e);
    assert forall day, d :: !Owns(open, day, d);
    hide Owns, IsNormal;
    forall i, j, day, d | 0 <= i < |later| && 0 <= j < |later| && Owns(later[i], day, d) && Owns(later[j], day, d) ensures i == j {
      assert Owns(rows[i], day, d) && Owns(rows[j], day, d);
    }
  }

  // ---------------------------------------------------------------- lookups

  lemma {:induction false} LookupFinds(rows: seq<Lock>, day: string, d: Domain)
    ensures ActiveLock(rows, day, d).None? <==> forall i :: 0 <= i < |rows| ==> !Answers(rows[i], day, d)
    ensures var r := ActiveLock(rows, day, d); r.Some? ==> r.value in rows && Answers(r.value, day, d)
  {
    hide Answers;
    if |rows| > 0 {
      LookupFinds(rows[1..], day, d);
      assert rows == [rows[0]] + rows[1..];
    }
  }

  /** A posting is refused exactly on the closed pairs. */
  lemma {:induction false} PostingRefusedExactly(rows: seq<Lock>, day: Date, d: Domain)
    requires ValidDate(day)
    ensures ActiveLock(rows, Iso(day), d).Some? <==> (day, d) in Closed(rows)
  {
    hide Iso, Answers, ActiveLock;
    LookupFinds(rows, Iso(day), d);
    assert forall i :: 0 <= i < |rows| ==> Owns(rows[i], day, d) == Answers(rows[i], Iso(day), d);
  }

  /** At most one lock answers, so the answer does not depend on the order of the rows. */
  lemma LookupIgnoresOrder(rows: seq<Lock>, others: seq<Lock>, day: Date, d: Domain)
    requires Inv(rows) && multiset(others) == multiset(rows) && ValidDate(day)
    ensures ActiveLock(others, Iso(day), d) == ActiveLock(rows, Iso(day), d)
  {
    hide Iso, Answers, ActiveLock, IsNormal;
    LookupFinds(rows, Iso(day), d);
    LookupFinds(others, Iso(day), d);
    var a, b := ActiveLock(rows, Iso(day), d), ActiveLock(others, Iso(day), d);
    forall l ensures l in rows <==> l in others {
      assert l in multiset(rows) <==> l in multiset(others);
    }
    if b.Some? {
      var j :| 0 <= j < |rows| && rows[j] == b.value;
      assert Answers(rows[j], Iso(day), d);
      var i :| 0 <= i < |rows| && rows[i] == a.value;
      assert Owns(rows[i], day, d) && Owns(rows[j], day, d);
    }
  }

  // ------------------------------------------------------------------- runs

  datatype Books = Books(rows: seq<Lock>, approvals: map<Id, Approval>)

  datatype Event =
    | Locks(start: Option<Date>, end: Option<Date>, kind: Option<Kind>, id: Id)
    | AsksUnlock(lock: Id, drawn: Id)
    | Decides(approval: Id, status: ApprovalStatus)
    | OtherApproval(id: Id, row: Approval)
    | Unlocks(lock: Id, approval: Id)

  predicate Possible(b: Books, e: Event) {
    match e
    case Locks(start, end, _, id) =>
      && (start.Some? ==> ValidDate(start.value)) && (end.Some? ==> ValidDate(end.value))
      && (forall i :: 0 <= i < |b.rows| ==> b.rows[i].id != id)
    case AsksUnlock(_, drawn) => drawn !in b.approvals
    case OtherApproval(id, row) => id !in b.approvals && row.action != "ACCOUNTING_PERIOD_UNLOCK"
    case Decides(approval, status) => approval in b.approvals && b.approvals[approval].status == PENDING && status != PENDING
    case Unlocks(_, _) => true
  }

  function Step(b: Books, e: Event): (Books, Reply)
    requires Possible(b, e)
  {
    match e
    case Locks(start, end, kind, id) =>
      var (rows, r) := CreateLock(b.rows, start, end, kind, id);
      (b.(rows := rows), r)
    case AsksUnlock(lock, drawn) =>
      var (approvals, r) := RequestUnlock(b.rows, b.approvals, lock, drawn);
      (b.(approvals := approvals), r)
    case Decides(approval, status) =>
      (b.(approvals := b.approvals[approval := b.approvals[approval].(status := status)]), Done)
    case OtherApproval(id, row) => (b.(approvals := b.approvals[id := row]), Done)
    case Unlocks(lock, approval) =>
      var (rows, r) := Unlock(b.rows, b.approvals, lock, approval);
      (b.(rows := rows), r)
  }

  /** Opened rows name an approved request for them; per lock at most one request waits. */
  ghost predicate ApprovalsFit(b: Books) {
    && (forall i :: 0 <= i < |b.rows| ==> OpenedRightly(b.rows[i], b.approvals))
    && (forall a, c :: a in b.approvals && c in b.approvals && a != c && b.approvals[a].status == PENDING
          && b.approvals[c].status == PENDING && b.approvals[a].action == "ACCOUNTING_PERIOD_UNLOCK"
          ==> !IsUnlock(b.approvals[c], b.approvals[a].entity) || b.approvals[a].entityType != "accounting_period_lock")
  }

  predicate OpenedRightly(l: Lock, approvals: map<Id, Approval>) {
    !l.locked ==> l.unlockedBy.Some? && l.unlockedBy.value in approvals
                  && approvals[l.unlockedBy.value].status == APPROVED && IsUnlock(approvals[l.unlockedBy.value], l.id)
  }

  predicate IsRun(books: seq<Books>, events: seq<Event>) {
    && |books| == |events| + 1 && books[0] == Books([], map[])
    && forall k :: 0 <= k < |events| ==> Possible(books[k], events[k]) && books[k + 1] == Step(books[k], events[k]).0
  }

  lemma StepKeeps(b: Books, e: Event)
    requires Inv(b.rows) && ApprovalsFit(b) && Possible(b, e)
    ensures Inv(Step(b, e).0.rows) && ApprovalsFit(Step(b, e).0)
  {
    hide Inv, CreateLock, Unlock, ApprovalsFit, RequestUnlock;
    match e
    case Locks(start, end, kind, id) =>
      CreateKeeps(b.rows, start, end, kind, id);
      CreateFits(b, start, end, kind, id);
    case AsksUnlock(lock, drawn) => RequestFits(b, lock, drawn);
    case Decides(approval, status) => DecideFits(b, approval, status);
    case OtherApproval(id, row) => OtherFits(b, id, row);
    case Unlocks(lock, approval) =>
      UnlockKeeps(b.rows, b.approvals, lock, approval);
      UnlockFits(b, lock, approval);
  }

  lemma CreateFits(b: Books, start: Option<Date>, end: Option<Date>, kind: Option<Kind>, id: Id)
    requires start.Some? ==> ValidDate(start.value)
    requires end.Some? ==> ValidDate(end.value)
    requires ApprovalsFit(b)
    ensures ApprovalsFit(b.(rows := CreateLock(b.rows, start, end, kind, id).0))
  {
    hide Iso, Before, Overlaps, IsUnlock;
  }

  lemma RequestFits(b: Books, lock: Id, drawn: Id)
    requires ApprovalsFit(b) && drawn !in b.approvals
    ensures ApprovalsFit(b.(approvals := RequestUnlock(b.rows, b.approvals, lock, drawn).0))
  {
    hide IndexOf;
    var later := b.(approvals := RequestUnlock(b.rows, b.approvals, lock, drawn).0);
    forall i | 0 <= i < |b.rows| ensures OpenedRightly(b.rows[i], later.approvals) {
      assert OpenedRightly(b.rows[i], b.approvals);
    }
  }

  lemma DecideFits(b: Books, approval: Id, status: ApprovalStatus)
    requires ApprovalsFit(b) && approval in b.approvals && b.approvals[approval].status == PENDING && status != PENDING
    ensures ApprovalsFit(b.(approvals := b.approvals[approval := b.approvals[approval].(status := status)]))
  {
    var approvals := b.approvals[approval := b.approvals[approval].(status := status)];
    forall i | 0 <= i < |b.rows| ensures OpenedRightly(b.rows[i], approvals) {
      assert OpenedRightly(b.rows[i], b.approvals);
    }
  }

  lemma OtherFits(b: Books, id: Id, row: Approval)
    requires ApprovalsFit(b) && id !in b.approvals && row.action != "ACCOUNTING_PERIOD_UNLOCK"
    ensures ApprovalsFit(b.(approvals := b.approvals[id := row]))
  {
    forall i | 0 <= i < |b.rows| ensures OpenedRightly(b.rows[i], b.approvals[id := row]) {
      assert OpenedRightly(b.rows[i], b.approvals);
    }
  }

  lemma UnlockFits(b: Books, lock: Id, approval: Id)
    requires ApprovalsFit(b)
    ensures ApprovalsFit(b.(rows := Unlock(b.rows, b.approvals, lock, approval).0))
  {
    var later := Unlock(b.rows, b.approvals, lock, approval).0;
    hide IsUnlock;
    forall i | 0 <= i < |later| ensures OpenedRightly(later[i], b.approvals) {
      assert OpenedRightly(b.rows[i], b.approvals);
    }
  }

  /** In every run LOCKED rows own disjoint pairs, every opened row names an approved
      unlock request for it, and no lock has two requests waiting. */
  lemma {:induction false} RunKeeps(books: seq<Books>, events: seq<Event>, n: nat)
    requires IsRun(books, events) && n <= |events|
    ensures Inv(books[n].rows) && ApprovalsFit(books[n])
  {
    hide Step, Possible;
    if n > 0 {
      hide Inv, ApprovalsFit;
      RunKeeps(books, events, n - 1);
      StepKeeps(books[n - 1], events[n - 1]);
    }
  }

  /** The same request on the simple view: a granted lock adds the pairs it asks for, a
      granted unlock takes its lock's pairs away, and nothing else moves the set. */
  ghost function ClosedAfter(b: Books, e: Event): Pairs
    requires Possible(b, e)
  {
    if Step(b, e).1 != Done then Closed(b.rows)
    else
      match e
      case Locks(start, end, kind, id) => Closed(b.rows) + Granted(start, end, kind)
      case Unlocks(lock, approval) => Closed(b.rows) - Held(b.rows, lock)
      case _ => Closed(b.rows)
  }

  ghost function Granted(start: Option<Date>, end: Option<Date>, kind: Option<Kind>): Pairs {
    if start.None? || end.None? || kind.None? then iset{} else Span(start.value, end.value, kind.value)
  }

  ghost function Held(rows: seq<Lock>, lock: Id): Pairs {
    var n := IndexOf(rows, lock);
    if n < |rows| then PairsOf(rows[n]) else iset{}
  }

  /** The lock table refines the set of closed pairs: every request of every kind moves
      the pairs the rows close exactly as it moves the set. */
  lemma StepRefinesSet(b: Books, e: Event)
    requires Inv(b.rows) && Possible(b, e)
    ensures Closed(Step(b, e).0.rows) == ClosedAfter(b, e)
  {
    hide Inv, Closed, CreateLock, Unlock, Span, RequestUnlock, PairsOf, IndexOf;
    match e
    case Locks(start, end, kind, id) =>
      CreateAnswers(b.rows, start, end, kind, id);
      if Step(b, e).1 == Done {
        CreateAddsExactly(b.rows, start.value, end.value, kind.value, id);
      }
    case Unlocks(lock, approval) =>
      UnlockAnswers(b.rows, b.approvals, lock, approval);
      if Step(b, e).1 == Done {
        UnlockRemovesExactly(b.rows, b.approvals, lock, approval);
      }
    case _ =>
  }

  lemma CreateAnswers(rows: seq<Lock>, start: Option<Date>, end: Option<Date>, kind: Option<Kind>, id: Id)
    requires start.Some? ==> ValidDate(start.value)
    requires end.Some? ==> ValidDate(end.value)
    ensures var (later, r) := CreateLock(rows, start, end, kind, id);
            if r == Done then start.Some? && end.Some? && kind.Some? else later == rows
  {
    hide Iso, Before, Overlaps;
  }

  lemma UnlockAnswers(rows: seq<Lock>, approvals: map<Id, Approval>, lock: Id, approval: Id)
    ensures Unlock(rows, approvals, lock, approval).1 != Done ==> Unlock(rows, approvals, lock, approval).0 == rows
  {
    hide IndexOf, IsUnlock;
  }

  // ------------------------------------------------------------ the service

  class Controls {
    var rows: seq<Lock>
    var approvals: map<Id, Approval>
    ghost var books: seq<Books>
    ghost var events: seq<Event>

    constructor ()
      ensures Valid() && events == [] && rows == []
    {
      rows, approvals, books, events := [], map[], [Books([], map[])], [];
    }

    /** What was served so far is a run that ends in these tables. */
    ghost predicate Valid()
      reads this
    {
      IsRun(books, events) && books[|events|] == Books(rows, approvals)
    }

    /** `active_period_lock`: take the first row that answers. */
    method FindActive(day: string, d: Domain) returns (found: Option<Lock>)
      ensures found == ActiveLock(rows, day, d)
    {
      hide Answers;
      for i := 0 to |rows|
        invariant ActiveLock(rows, day, d) == ActiveLock(rows[i..], day, d)
      {
        if Answers(rows[i], day, d) { return Some(rows[i]); }
        assert rows[i..][1..] == rows[i + 1..];
      }
      return None;
    }

    /** `assert_period_open`: the posting goes through exactly when the pair is not closed. */
    method AssertOpen(day: Date, d: Domain) returns (open: bool)
      requires ValidDate(day)
      ensures open <==> (day, d) !in Closed(rows)
    {
      hide Iso, ActiveLock, Closed;
      var lock := FindActive(Iso(day), d);
      PostingRefusedExactly(rows, day, d);
      return lock.None?;
    }

    method Create(start: Option<Date>, end: Option<Date>, kind: Option<Kind>, id: Id) returns (r: Reply)
      requires start.Some? ==> ValidDate(start.value)
      requires end.Some? ==> ValidDate(end.value)
      modifies this`rows
      ensures (rows, r) == CreateLock(old(rows), start, end, kind, id)
    {
      hide Iso, Before, Overlaps;
      if start.None? || end.None? { return Refused(422); }
      var s, e := Iso(start.value), Iso(end.value);
      if Before(e, s) { return Refused(422); }
      if kind.None? { return Refused(422); }
      for i := 0 to |rows|
        invariant rows == old(rows)
        invariant forall k :: 0 <= k < i ==> !Overlaps(rows[k], s, e, kind.value)
      {
        if Overlaps(rows[i], s, e, kind.value) { return Refused(409); }
      }
      rows := rows + [Lock(id, s, e, kind.value, true, None)];
      return Done;
    }

    method AskUnlock(lock: Id, drawn: Id) returns (r: Reply)
      modifies this`approvals
      ensures (approvals, r) == RequestUnlock(rows, old(approvals), lock, drawn)
    {
      hide IsUnlock;
      var n := IndexOf(rows, lock);
      if n == |rows| { return Refused(404); }
      if !rows[n].locked { return Refused(409); }
      if exists a | a in approvals :: IsUnlock(approvals[a], lock) && approvals[a].status == PENDING { return Done; }
      approvals := approvals[drawn := Approval("ACCOUNTING_PERIOD_UNLOCK", "accounting_period_lock", lock, PENDING)];
      return Done;
    }

    method ExecuteUnlock(lock: Id, approval: Id) returns (r: Reply)
      modifies this`rows
      ensures (rows, r) == Unlock(old(rows), approvals, lock, approval)
    {
      hide IsUnlock;
      var n := IndexOf(rows, lock);
      if n == |rows| { return Refused(404); }
      if !rows[n].locked { return Refused(409); }
      if approval !in approvals || approvals[approval].status != APPROVED { return Refused(409); }
      if !IsUnlock(approvals[approval], lock) { return Refused(409); }
      rows := rows[n := rows[n].(locked := false, unlockedBy := Some(approval))];
      return Done;
    }

    method Dispatch(e: Event) returns (r: Reply)
      requires Possible(Books(rows, approvals), e)
      modifies this`rows, this`approvals
      ensures (Books(rows, approvals), r) == Step(old(Books(rows, approvals)), e)
    {
      hide CreateLock, Unlock, RequestUnlock;
      match e {
        case Locks(start, end, kind, id) => r := Create(start, end, kind, id);
        case AsksUnlock(lock, drawn) => r := AskUnlock(lock, drawn);
        case Decides(approval, status) =>
          approvals := approvals[approval := approvals[approval].(status := status)];
          r := Done;
        case OtherApproval(id, row) =>
          approvals := approvals[id := row];
          r := Done;
        case Unlocks(lock, approval) => r := ExecuteUnlock(lock, approval);
      }
    }

    /** One request of any kind, decisions of the approval service included: the tables
        stay on a run, LOCKED rows own disjoint pairs, and the closed pairs move exactly
        as the simple set does. */
    method Serve(e: Event) returns (r: Reply)
      requires Valid() && Possible(Books(rows, approvals), e)
      modifies this
      ensures Valid() && events == old(events) + [e] && books == old(books) + [Books(rows, approvals)]
      ensures r == Step(old(Books(rows, approvals)), e).1
      ensures Inv(rows) && Closed(rows) == ClosedAfter(old(Books(rows, approvals)), e)
    {
      hide Step, Possible, Inv, ApprovalsFit, Closed, ClosedAfter;
      RunKeeps(books, events, |events|);
      StepKeeps(Books(rows, approvals), e);
      StepRefinesSet(Books(rows, approvals), e);
      LongerRun(books, events, e);
      hide IsRun;
      r := Dispatch(e);
      books, events := books + [Books(rows, approvals)], events + [e];
    }
  }

  lemma LongerRun(books: seq<Books>, events: seq<Event>, e: Event)
    requires IsRun(books, events) && Possible(books[|events|], e)
    ensures IsRun(books + [Step(books[|events|], e).0], events + [e])
  {
    hide Step, Possible;
  }
}
