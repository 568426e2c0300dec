/** What a loop over selected rows has done when some of them are still to come. */
module IdentityLoops {
  import opened IdentityModel

  /** Rows in `rest` are still as before, all others are as the loop will leave them. */
  ghost predicate Midway<R>(before: map<Id, R>, now: map<Id, R>, after: map<Id, R>, rest: set<Id>) {
    && now.Keys == before.Keys == after.Keys && rest <= now.Keys
    && forall id :: id in now ==> now[id] == if id in rest then before[id] else after[id]
  }

  lemma OneRow<R>(before: map<Id, R>, now: map<Id, R>, after: map<Id, R>, rest: set<Id>, id: Id)
    requires Midway(before, now, after, rest) && id in rest
    ensures id in now && now[id] == before[id] && id in after
    ensures Midway(before, now[id := after[id]], after, rest - {id})
  {
  }

  lemma AllRows<R>(before: map<Id, R>, now: map<Id, R>, after: map<Id, R>)
    requires Midway(before, now, after, {})
    ensures now == after
  {
  }

  /** The sessions once the devices in `done` have been replaced. */
  ghost predicate SessionsAfter(approvals: map<Id, Approval>, before: map<Id, Session>, now: map<Id, Session>,
                                done: set<Id>)
    requires done <= approvals.Keys
  {
    && now.Keys == before.Keys
    && forall id :: id in now ==>
         now[id] == if before[id].status == ACTIVE && OwnsOne(approvals, id, done) then Revoked(before[id]) else before[id]
  }

  ghost predicate OwnsOne(approvals: map<Id, Approval>, session: Id, done: set<Id>)
    requires done <= approvals.Keys
  {
    exists a :: a in done && approvals[a].session == session
  }

  lemma OneMoreSession(approvals: map<Id, Approval>, before: map<Id, Session>, now: map<Id, Session>, done: set<Id>,
                       a: Id)
    requires done <= approvals.Keys && a in approvals && SessionsAfter(approvals, before, now, done)
    ensures var session := approvals[a].session;
            SessionsAfter(approvals, before,
                          if session in now && now[session].status == ACTIVE then now[session := Revoked(now[session])] else now,
                          done + {a})
  {
    forall id ensures OwnsOne(approvals, id, done + {a}) == (OwnsOne(approvals, id, done) || approvals[a].session == id) {
      if OwnsOne(approvals, id, done) {
        var d :| d in done && approvals[d].session == id;
        assert d in done + {a};
      }
      assert a in done + {a};
    }
  }

  lemma AllSessions(approvals: map<Id, Approval>, before: map<Id, Session>, now: map<Id, Session>, user: Id,
                    spare: Option<Id>, done: set<Id>)
    requires done == set a | a in approvals && IsReplaced(approvals, user, spare, a)
    requires SessionsAfter(approvals, before, now, done)
    ensures now == RevokeReplacedSessions(approvals, before, user, spare)
  {
    hide IsReplaced;
    forall id
      ensures OwnsOne(approvals, id, done) == exists a | a in approvals :: IsReplaced(approvals, user, spare, a) && approvals[a].session == id
    {
      if OwnsOne(approvals, id, done) {
        var d :| d in done && approvals[d].session == id;
        assert IsReplaced(approvals, user, spare, d);
      }
    }
  }

  predicate Hits(approvals: map<Id, Approval>, row: Activation, user: Id, done: set<Id>, bySession: bool)
    requires done <= approvals.Keys
  {
    && row.user == user && row.status == Live && row.device in done
    && (bySession ==> approvals[row.device].session == row.session)
  }

  /** The activations once the devices in `done` have been replaced. */
  ghost predicate ActivationsAfter(
    approvals: map<Id, Approval>, before: map<Id, Activation>, now: map<Id, Activation>, user: Id, done: set<Id>, bySession: bool)
    requires done <= approvals.Keys
  {
    && now.Keys == before.Keys
    && forall id :: id in now ==>
         now[id] == if Hits(approvals, before[id], user, done, bySession) then before[id].(status := Cancelled) else before[id]
  }

  lemma OneMoreDevice(
    approvals: map<Id, Approval>, before: map<Id, Activation>, now: map<Id, Activation>, user: Id, done: set<Id>, bySession: bool, a: Id)
    requires done <= approvals.Keys && a in approvals && ActivationsAfter(approvals, before, now, user, done, bySession)
    ensures var session := if bySession then Some(approvals[a].session) else None;
            ActivationsAfter(approvals, before, CancelLive(now, user, session, Some(a)), user, done + {a}, bySession)
  {
  }

  lemma AllDevices(
    approvals: map<Id, Approval>, before: map<Id, Activation>, now: map<Id, Activation>, user: Id, spare: Option<Id>, done: set<Id>, bySession: bool)
    requires done == set a | a in approvals && IsReplaced(approvals, user, spare, a)
    requires ActivationsAfter(approvals, before, now, user, done, bySession)
    ensures now == CancelReplaced(approvals, before, user, spare, bySession)
  {
  }
}
