/** What stands behind an unlock, told from the requests (Backend/backend/period_controls.py). */
module PeriodHistory {
  import opened PeriodLocks

  /** The request at `k` is the one that drew this unlock approval for the lock. */
  predicate DrewAt(books: seq<Books>, events: seq<Event>, k: nat, lock: Id, approval: Id) {
    && k < |events| < |books| && events[k] == AsksUnlock(lock, approval)
    && approval !in books[k].approvals && approval in books[k + 1].approvals
  }

  predicate DecidedAt(books: seq<Books>, events: seq<Event>, k: nat, approval: Id, status: ApprovalStatus) {
    k < |events| < |books| && events[k] == Decides(approval, status)
  }

  /** Every request but a granted one of its own kind leaves the row of the lock. */
  predicate LockedAt(books: seq<Books>, events: seq<Event>, k: nat, lock: Id) {
    && k < |events| < |books| && Possible(books[k], events[k])
    && events[k].Locks? && events[k].id == lock && Step(books[k], events[k]).1 == Done
  }

  predicate OpenedAt(books: seq<Books>, events: seq<Event>, k: nat, lock: Id) {
    && k < |events| < |books| && Possible(books[k], events[k])
    && events[k].Unlocks? && events[k].lock == lock && Step(books[k], events[k]).1 == Done
  }

  predicate IsLocked(b: Books, lock: Id) { exists i :: 0 <= i < |b.rows| && b.rows[i].id == lock && b.rows[i].locked }

  predicate HasRow(b: Books, lock: Id) { exists i :: 0 <= i < |b.rows| && b.rows[i].id == lock }

  /** An unlock request for this lock. */
  predicate IsAsked(b: Books, approval: Id, lock: Id, status: ApprovalStatus) {
    approval in b.approvals && b.approvals[approval] == Approval("ACCOUNTING_PERIOD_UNLOCK", "accounting_period_lock", lock, status)
  }

  lemma RunStep(books: seq<Books>, events: seq<Event>, k: nat)
    requires IsRun(books, events) && k < |events|
    ensures |books| == |events| + 1 && Possible(books[k], events[k]) && books[k + 1] == Step(books[k], events[k]).0
  {
    hide Step, Possible;
  }

  lemma RunStart(books: seq<Books>, events: seq<Event>)
    requires IsRun(books, events)
    ensures |books| == |events| + 1 && books[0] == Books([], map[])
  {
    hide Step, Possible;
  }

  // ------------------------------------------------------------ one request

  lemma FoundExactly(rows: seq<Lock>, lock: Id)
    requires forall i, j :: 0 <= i < j < |rows| ==> rows[i].id != rows[j].id
    ensures (IndexOf(rows, lock) < |rows| && rows[IndexOf(rows, lock)].locked)
       <==> exists i :: 0 <= i < |rows| && rows[i].id == lock && rows[i].locked
  {
    var n := IndexOf(rows, lock);
    if i :| 0 <= i < |rows| && rows[i].id == lock && rows[i].locked {
      assert !(i < n) && !(n < i && n < |rows|);
    }
    hide IndexOf;
  }

  lemma UnlockStep(b: Books, lock: Id, approval: Id)
    requires Inv(b.rows)
    ensures Step(b, Unlocks(lock, approval)).1 == Done <==> IsLocked(b, lock) && IsAsked(b, approval, lock, APPROVED)
  {
    hide IndexOf, Inv, IsAsked, Unlock, CreateLock, RequestUnlock;
    DistinctIds(b.rows);
    FoundExactly(b.rows, lock);
    UnlockAnswered(b, lock, approval);
  }

  lemma DistinctIds(rows: seq<Lock>)
    requires Inv(rows)
    ensures forall i, j :: 0 <= i < j < |rows| ==> rows[i].id != rows[j].id
  {
    hide Disjoint, Normal;
  }

  lemma UnlockAnswered(b: Books, lock: Id, approval: Id)
    ensures Unlock(b.rows, b.approvals, lock, approval).1 == Done
       <==> IndexOf(b.rows, lock) < |b.rows| && b.rows[IndexOf(b.rows, lock)].locked && IsAsked(b, approval, lock, APPROVED)
  {
    hide IndexOf;
  }

  ghost predicate IsWaiting(b: Books, lock: Id) { exists a :: IsAsked(b, a, lock, PENDING) }

  lemma WaitsExactly(b: Books, lock: Id)
    ensures IsWaiting(b, lock) <==> exists a | a in b.approvals :: IsUnlock(b.approvals[a], lock) && b.approvals[a].status == PENDING
  {
    if a :| a in b.approvals && IsUnlock(b.approvals[a], lock) && b.approvals[a].status == PENDING {
      assert IsAsked(b, a, lock, PENDING);
    }
  }

  lemma AskStep(b: Books, lock: Id, drawn: Id)
    requires Inv(b.rows) && drawn !in b.approvals
    ensures var (t, reply) := Step(b, AsksUnlock(lock, drawn));
            && t.rows == b.rows && (reply == Done <==> IsLocked(b, lock))
            && t.approvals == if IsLocked(b, lock) && !IsWaiting(b, lock)
                              then b.approvals[drawn := Approval("ACCOUNTING_PERIOD_UNLOCK", "accounting_period_lock", lock, PENDING)]
                              else b.approvals
  {
    hide IndexOf, Inv, IsWaiting, IsUnlock, Unlock, CreateLock, RequestUnlock;
    DistinctIds(b.rows);
    FoundExactly(b.rows, lock);
    AskAnswers(b.rows, b.approvals, lock, drawn);
    WaitsExactly(b, lock);
  }

  lemma AskAnswers(rows: seq<Lock>, approvals: map<Id, Approval>, lock: Id, drawn: Id)
    ensures var (later, reply) := RequestUnlock(rows, approvals, lock, drawn);
            var found := IndexOf(rows, lock) < |rows| && rows[IndexOf(rows, lock)].locked;
            && (reply == Done <==> found)
            && later == if found && !(exists a | a in approvals :: IsUnlock(approvals[a], lock) && approvals[a].status == PENDING)
                        then approvals[drawn := Approval("ACCOUNTING_PERIOD_UNLOCK", "accounting_period_lock", lock, PENDING)]
                        else approvals
  {
    hide IndexOf, IsUnlock;
  }

  lemma RowsStep(b: Books, e: Event, lock: Id)
    requires Inv(b.rows) && Possible(b, e)
    ensures var (t, reply) := Step(b, e);
            && (HasRow(t, lock) <==> HasRow(b, lock) || (e.Locks? && e.id == lock && reply == Done))
            && (IsLocked(t, lock) <==> (IsLocked(b, lock) && !(e.Unlocks? && e.lock == lock && reply == Done))
                                       || (e.Locks? && e.id == lock && reply == Done))
            && (e.Locks? && e.id == lock ==> !HasRow(b, lock))
  {
    hide CreateLock, Unlock, RequestUnlock, Inv;
    match e
    case Locks(start, end, kind, id) => LockRows(b, e, lock);
    case Unlocks(l, approval) => UnlockRows(b, e, lock);
    case AsksUnlock(l, drawn) => AskStep(b, l, drawn);
    case _ =>
  }

  lemma LockRows(b: Books, e: Event, lock: Id)
    requires Possible(b, e) && e.Locks?
    ensures var (t, reply) := Step(b, e);
            && (HasRow(t, lock) <==> HasRow(b, lock) || (e.id == lock && reply == Done))
            && (IsLocked(t, lock) <==> IsLocked(b, lock) || (e.id == lock && reply == Done))
            && (e.id == lock ==> !HasRow(b, lock))
  {
    hide Iso, Overlaps;
    var (t, reply) := Step(b, e);
    if reply == Done {
      var row := t.rows[|b.rows|];
      assert row.id == e.id && row.locked && t.rows == b.rows + [row];
      hide Step;
      forall i | 0 <= i < |b.rows| ensures t.rows[i] == b.rows[i] {}
    }
  }

  lemma UnlockRows(b: Books, e: Event, lock: Id)
    requires Inv(b.rows) && e.Unlocks?
    ensures var (t, reply) := Step(b, e);
            && (HasRow(t, lock) <==> HasRow(b, lock))
            && (IsLocked(t, lock) <==> IsLocked(b, lock) && !(e.lock == lock && reply == Done))
  {
    var (t, reply) := Step(b, e);
    if reply == Done {
      var n := IndexOf(b.rows, e.lock);
      OneOpened(b, t, n, lock);
    }
    hide IndexOf, IsUnlock, Inv, IsLocked, HasRow;
  }

  lemma OneOpened(b: Books, t: Books, n: nat, lock: Id)
    requires n < |b.rows| && forall i, j :: 0 <= i < j < |b.rows| ==> b.rows[i].id != b.rows[j].id
    requires |t.rows| == |b.rows| && t.rows == b.rows[n := t.rows[n]] && t.rows[n].id == b.rows[n].id && !t.rows[n].locked
    ensures HasRow(t, lock) <==> HasRow(b, lock)
    ensures IsLocked(t, lock) <==> IsLocked(b, lock) && b.rows[n].id != lock
  {
    assert forall i :: 0 <= i < |b.rows| && i != n ==> t.rows[i] == b.rows[i];
    if i :| 0 <= i < |b.rows| && b.rows[i].id == lock {
      assert t.rows[i].id == lock;
    }
    if i :| 0 <= i < |t.rows| && t.rows[i].id == lock {
      assert b.rows[i].id == lock;
    }
    if i :| 0 <= i < |b.rows| && b.rows[i].id == lock && b.rows[i].locked && i != n {
      assert t.rows[i].id == lock && t.rows[i].locked;
    }
  }

  lemma ApprovalStep(b: Books, e: Event, approval: Id, lock: Id, status: ApprovalStatus)
    requires Inv(b.rows) && Possible(b, e)
    ensures var t := Step(b, e).0;
            && (approval in b.approvals ==> approval in t.approvals) && !(e.Decides? && e.status == PENDING)
            && (IsAsked(t, approval, lock, status) <==>
                  || (IsAsked(b, approval, lock, status) && !(e.Decides? && e.approval == approval))
                  || (IsAsked(b, approval, lock, PENDING) && e == Decides(approval, status))
                  || (e == AsksUnlock(lock, approval) && approval !in b.approvals && approval in t.approvals && status == PENDING))
  {
    hide CreateLock, Unlock, RequestUnlock, Inv;
    if e.AsksUnlock? {
      AskStep(b, e.lock, e.drawn);
    }
  }

  // --------------------------------------------------------------- histories

  predicate WasLocked(books: seq<Books>, events: seq<Event>, n: nat, lock: Id) {
    exists k :: 0 <= k < n && LockedAt(books, events, k, lock)
  }

  predicate WasOpened(books: seq<Books>, events: seq<Event>, n: nat, lock: Id) {
    exists k :: 0 <= k < n && OpenedAt(books, events, k, lock)
  }

  lemma OneMore(books: seq<Books>, events: seq<Event>, n: nat, lock: Id)
    requires n > 0
    ensures WasLocked(books, events, n, lock) <==> WasLocked(books, events, n - 1, lock) || LockedAt(books, events, n - 1, lock)
    ensures WasOpened(books, events, n, lock) <==> WasOpened(books, events, n - 1, lock) || OpenedAt(books, events, n - 1, lock)
  {
    hide LockedAt, OpenedAt;
  }

  /** A lock is LOCKED if and only if it was granted and no unlock of it was. */
  lemma {:induction false} LockedExactly(books: seq<Books>, events: seq<Event>, n: nat, lock: Id)
    requires IsRun(books, events) && n <= |events|
    ensures IsLocked(books[n], lock) <==> WasLocked(books, events, n, lock) && !WasOpened(books, events, n, lock)
    ensures HasRow(books[n], lock) <==> WasLocked(books, events, n, lock)
    ensures WasOpened(books, events, n, lock) ==> HasRow(books[n], lock)
  {
    hide IsRun, Step, Possible, Inv, ApprovalsFit;
    RunStart(books, events);
    if n > 0 {
      RunKeeps(books, events, n - 1);
      RunStep(books, events, n - 1);
      var b, e := books[n - 1], events[n - 1];
      LockedExactly(books, events, n - 1, lock);
      RowsStep(b, e, lock);
      OpenedNeedsRow(b, e, lock);
      LockedIsRow(b, lock);
      OneMore(books, events, n, lock);
      hide IsLocked, HasRow, WasLocked, WasOpened;
    }
  }

  lemma LockedIsRow(b: Books, lock: Id)
    ensures IsLocked(b, lock) ==> HasRow(b, lock)
  {
  }

  lemma OpenedNeedsRow(b: Books, e: Event, lock: Id)
    requires Inv(b.rows) && Possible(b, e)
    ensures e.Unlocks? && e.lock == lock && Step(b, e).1 == Done ==> HasRow(b, lock)
  {
    if e.Unlocks? {
      UnlockStep(b, lock, e.approval);
    }
    hide Step, Inv;
  }

  /** The request was drawn for the lock before, and not decided since. */
  ghost predicate Waits(books: seq<Books>, events: seq<Event>, n: nat, lock: Id, approval: Id) {
    exists i :: 0 <= i < n && DrewAt(books, events, i, lock, approval)
                && forall j, s :: i < j < n ==> !DecidedAt(books, events, j, approval, s)
  }

  /** It was drawn for the lock and then approved. */
  predicate Approved(books: seq<Books>, events: seq<Event>, n: nat, lock: Id, approval: Id) {
    exists i, j :: 0 <= i < j < n && DrewAt(books, events, i, lock, approval) && DecidedAt(books, events, j, approval, APPROVED)
  }

  lemma OneMoreWaits(books: seq<Books>, events: seq<Event>, n: nat, lock: Id, approval: Id)
    requires 0 < n <= |events| < |books|
    ensures Waits(books, events, n, lock, approval)
       <==> (Waits(books, events, n - 1, lock, approval) && !(events[n - 1].Decides? && events[n - 1].approval == approval))
            || DrewAt(books, events, n - 1, lock, approval)
  {
    hide DrewAt;
    if Waits(books, events, n - 1, lock, approval) && !(events[n - 1].Decides? && events[n - 1].approval == approval) {
      var i :| 0 <= i < n - 1 && DrewAt(books, events, i, lock, approval)
            && forall j, s :: i < j < n - 1 ==> !DecidedAt(books, events, j, approval, s);
      assert forall j, s :: i < j < n ==> !DecidedAt(books, events, j, approval, s);
    }
    if Waits(books, events, n, lock, approval) {
      var i :| 0 <= i < n && DrewAt(books, events, i, lock, approval)
            && forall j, s :: i < j < n ==> !DecidedAt(books, events, j, approval, s);
      assert i < n - 1 && events[n - 1].Decides? ==> !DecidedAt(books, events, n - 1, approval, events[n - 1].status);
    }
  }

  lemma OneMoreApproved(books: seq<Books>, events: seq<Event>, n: nat, lock: Id, approval: Id)
    requires 0 < n <= |events| < |books|
    ensures Approved(books, events, n, lock, approval)
       <==> Approved(books, events, n - 1, lock, approval)
            || ((exists i :: 0 <= i < n - 1 && DrewAt(books, events, i, lock, approval))
                && events[n - 1] == Decides(approval, APPROVED))
  {
    hide DrewAt;
    if events[n - 1] == Decides(approval, APPROVED) {
      assert DecidedAt(books, events, n - 1, approval, APPROVED);
    }
  }

  /** A request on record for a lock was drawn for it, and waits exactly until it is decided. */
  lemma {:induction false} AskedExactly(books: seq<Books>, events: seq<Event>, n: nat, approval: Id, lock: Id)
    requires IsRun(books, events) && n <= |events|
    ensures IsAsked(books[n], approval, lock, PENDING) <==> Waits(books, events, n, lock, approval)
    ensures IsAsked(books[n], approval, lock, APPROVED) <==> Approved(books, events, n, lock, approval)
  {
    hide IsRun, Step, Possible, Inv, ApprovalsFit;
    RunStart(books, events);
    if n > 0 {
      RunKeeps(books, events, n - 1);
      RunStep(books, events, n - 1);
      var b, e := books[n - 1], events[n - 1];
      AskedExactly(books, events, n - 1, approval, lock);
      ApprovalStep(b, e, approval, lock, PENDING);
      ApprovalStep(b, e, approval, lock, APPROVED);
      OneMoreWaits(books, events, n, lock, approval);
      OneMoreApproved(books, events, n, lock, approval);
      DecidedWaits(books, events, n - 1, approval, lock);
      hide IsAsked, Waits, Approved;
    }
  }

  /** Whatever is asked of it, an unlock request keeps what it is for. */
  lemma {:induction false} DrawnStays(books: seq<Books>, events: seq<Event>, i: nat, n: nat, lock: Id, approval: Id)
    requires IsRun(books, events) && i < n <= |events| && DrewAt(books, events, i, lock, approval)
    ensures approval in books[n].approvals && IsAsked(books[n], approval, lock, books[n].approvals[approval].status)
    decreases n
  {
    hide IsRun, Step, Possible, Inv, ApprovalsFit;
    RunKeeps(books, events, n - 1);
    RunStep(books, events, n - 1);
    if i < n - 1 {
      DrawnStays(books, events, i, n - 1, lock, approval);
      KeepsPurpose(books[n - 1], events[n - 1], approval);
    } else {
      ApprovalStep(books[i], events[i], approval, lock, PENDING);
    }
  }

  lemma KeepsPurpose(b: Books, e: Event, approval: Id)
    requires Possible(b, e) && approval in b.approvals
    ensures var t := Step(b, e).0;
            approval in t.approvals && t.approvals[approval] == b.approvals[approval].(status := t.approvals[approval].status)
  {
    hide CreateLock, Unlock, IndexOf;
  }

  /** What is decided was waiting, so a request drawn before was not decided yet. */
  lemma DecidedWaits(books: seq<Books>, events: seq<Event>, n: nat, approval: Id, lock: Id)
    requires IsRun(books, events) && n < |events|
    requires IsAsked(books[n], approval, lock, PENDING) <==> Waits(books, events, n, lock, approval)
    ensures events[n].Decides? && events[n].approval == approval && (exists i :: 0 <= i < n && DrewAt(books, events, i, lock, approval)) ==>
              Waits(books, events, n, lock, approval)
  {
    RunStep(books, events, n);
    hide IsRun, Step, DrewAt;
    if events[n].Decides? && events[n].approval == approval && exists i :: 0 <= i < n && DrewAt(books, events, i, lock, approval) {
      var i :| 0 <= i < n && DrewAt(books, events, i, lock, approval);
      DrawnStays(books, events, i, n, lock, approval);
      hide Waits;
    }
  }

  // --------------------------------------------------------------- promises

  /** In every run an unlock is granted if and only if the lock was granted and not opened
      before, and the approval it names was drawn by an unlock request for this very lock and
      then approved. */
  lemma UnlockGrantedExactly(books: seq<Books>, events: seq<Event>, n: nat, lock: Id, approval: Id)
    requires IsRun(books, events) && n <= |events|
    ensures Step(books[n], Unlocks(lock, approval)).1 == Done
       <==> WasLocked(books, events, n, lock) && !WasOpened(books, events, n, lock) && Approved(books, events, n, lock, approval)
  {
    RunKeeps(books, events, n);
    LockedExactly(books, events, n, lock);
    AskedExactly(books, events, n, approval, lock);
    hide IsRun, Inv, ApprovalsFit, IsLocked, IsAsked, WasLocked, WasOpened, Approved;
    UnlockStep(books[n], lock, approval);
  }

  /** In every run an unlock may be asked for exactly while the lock is LOCKED, and a new
      request is drawn exactly when none for the lock waits. */
  lemma AskGrantedExactly(books: seq<Books>, events: seq<Event>, n: nat, lock: Id, drawn: Id)
    requires IsRun(books, events) && n <= |events| && drawn !in books[n].approvals
    ensures var (t, reply) := Step(books[n], AsksUnlock(lock, drawn));
            && (reply == Done <==> WasLocked(books, events, n, lock) && !WasOpened(books, events, n, lock))
            && (drawn in t.approvals <==> reply == Done && forall a :: !Waits(books, events, n, lock, a))
            && t.rows == books[n].rows
  {
    RunStart(books, events);
    hide IsRun, Inv, ApprovalsFit, IsLocked, IsAsked, WasLocked, WasOpened, Waits, Step;
    RunKeeps(books, events, n);
    LockedExactly(books, events, n, lock);
    forall a ensures IsAsked(books[n], a, lock, PENDING) <==> Waits(books, events, n, lock, a) { AskedExactly(books, events, n, a, lock); }
    AskStep(books[n], lock, drawn);
  }
}
