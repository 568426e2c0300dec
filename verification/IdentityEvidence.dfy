/** What the audit log must hold for a session to be ACTIVE at aal2. */
module IdentityEvidence {
  import opened IdentityModel
  import opened IdentityInvariants

  // ----------------------------------------------------- order in the log

  /** The facts `fs` occur in the log in this order, not necessarily adjacent. */
  predicate InOrder(log: seq<Fact>, fs: seq<Fact>)
    decreases |log|
  {
    || |fs| == 0
    || (|log| > 0 &&
        var last := |log| - 1;
        || (log[last] == fs[|fs| - 1] && InOrder(log[..last], fs[..|fs| - 1]))
        || InOrder(log[..last], fs))
  }

  lemma InOrderStays(log: seq<Fact>, f: Fact, fs: seq<Fact>)
    requires InOrder(log, fs)
    ensures InOrder(log + [f], fs)
  {
    assert (log + [f])[..|log|] == log;
  }

  lemma InOrderThen(log: seq<Fact>, f: Fact, fs: seq<Fact>)
    requires InOrder(log, fs)
    ensures InOrder(log + [f], fs + [f])
  {
    assert (log + [f])[..|log|] == log && (fs + [f])[..|fs|] == fs;
  }

  lemma {:induction false} InOrderOne(log: seq<Fact>, f: Fact)
    requires f in log
    ensures InOrder(log, [f])
  {
    var last := |log| - 1;
    assert log == log[..last] + [log[last]];
    if log[last] == f {
      assert InOrder(log[..last], [f][..0]);
    } else {
      InOrderOne(log[..last], f);
    }
  }

  /** The reading as positions: increasing indices at which the facts stand. */
  lemma {:induction false} InOrderPositions(log: seq<Fact>, fs: seq<Fact>) returns (at: seq<nat>)
    requires InOrder(log, fs)
    ensures |at| == |fs|
    ensures forall k :: 0 <= k < |at| ==> at[k] < |log| && log[at[k]] == fs[k]
    ensures forall k, l :: 0 <= k < l < |at| ==> at[k] < at[l]
    decreases |log|
  {
    if |fs| == 0 {
      at := [];
    } else {
      var last := |log| - 1;
      if log[last] == fs[|fs| - 1] && InOrder(log[..last], fs[..|fs| - 1]) {
        at := InOrderPositions(log[..last], fs[..|fs| - 1]);
        at := at + [last];
      } else {
        at := InOrderPositions(log[..last], fs);
      }
    }
  }

  // ------------------------------------------------------------- evidence

  /** The factor was proved on this session and the session was then held. */
  predicate IsHeldStart(f: Fact, session: Id, user: Id, purpose: Purpose) {
    match purpose
    case OFFICE => f.TotpAccepted? && f.session == session && f.user == user && f.basis == Held
    case AUTHENTICATOR_ACTIVATION => f == EmailVerified(session, user, Held)
  }

  /** ... and the mailbox owner then approved this request of this session. */
  ghost predicate MailboxSaidYes(log: seq<Fact>, approval: Id, session: Id, user: Id, purpose: Purpose) {
    exists f :: IsHeldStart(f, session, user, purpose) && InOrder(log, [f, MailboxApproved(approval, session)])
  }

  ghost predicate HeldStart(log: seq<Fact>, session: Id, user: Id, purpose: Purpose) {
    exists f :: IsHeldStart(f, session, user, purpose) && f in log
  }

  ghost predicate ByMailbox(log: seq<Fact>, session: Id, user: Id, purpose: Purpose) {
    exists f, a :: IsHeldStart(f, session, user, purpose)
                && InOrder(log, [f, MailboxApproved(a, session), DeviceCompleted(a, session)])
  }

  /** The factor was proved and nothing further was required: device approval is
      switched off, or the request carried the proof of a trusted device. */
  ghost predicate Direct(log: seq<Fact>, session: Id, user: Id, purpose: Purpose) {
    match purpose
    case OFFICE =>
      (exists n :: TotpAccepted(session, user, n, ApprovalOff) in log)
      || (exists n, d :: TotpAccepted(session, user, n, Known(d)) in log)
    case AUTHENTICATOR_ACTIVATION =>
      (exists d :: EmailVerified(session, user, Known(d)) in log)
      || (exists d :: EmailVerified(session, user, Reviewer(d)) in log)
  }

  /** A QR request of this session scanned, approved by the same device, then completed. */
  ghost predicate ByQr(log: seq<Fact>, session: Id) {
    exists q, d :: InOrder(log, [Scanned(q, session, d), Approved(q, session, d), Completed(q, session)])
  }

  ghost predicate Evidence(log: seq<Fact>, session: Id, user: Id, purpose: Purpose) {
    || Direct(log, session, user, purpose)
    || ByMailbox(log, session, user, purpose)
    || (purpose == OFFICE && ByQr(log, session))
  }

  // ------------------------------------------------------- the invariant

  ghost predicate SessionShown(log: seq<Fact>, id: Id, row: Session) {
    row.status == ACTIVE && row.aal == AAL2 ==> Evidence(log, id, row.user, row.purpose)
  }

  ghost predicate ApprovalShown(log: seq<Fact>, sessions: Sessions, id: Id, row: Approval) {
    row.session in sessions &&
    var purpose := sessions[row.session].purpose;
    && (row.status == ApprovalPending ==> HeldStart(log, row.session, row.user, purpose))
    && (row.status == ApprovalApproved ==> MailboxSaidYes(log, id, row.session, row.user, purpose))
  }

  predicate QrShown(log: seq<Fact>, id: Id, row: Qr) {
    && (row.status == QrScanned ==> row.scannedBy.Some? && InOrder(log, [Scanned(id, row.session, row.scannedBy.value)]))
    && (row.status == QrApproved ==>
          && row.scannedBy.Some?
          && InOrder(log, [Scanned(id, row.session, row.scannedBy.value), Approved(id, row.session, row.scannedBy.value)]))
  }

  ghost predicate Shown(s: State) {
    && (forall i :: i in s.sessions ==> SessionShown(s.log, i, s.sessions[i]))
    && (forall a :: a in s.approvals ==> ApprovalShown(s.log, s.sessions, a, s.approvals[a]))
    && (forall q :: q in s.qrs ==> QrShown(s.log, q, s.qrs[q]))
  }

  // ------------------------------------------------------ the log only grows

  lemma EvidenceGrows(log: seq<Fact>, g: Fact, session: Id, user: Id, purpose: Purpose)
    ensures Direct(log, session, user, purpose) ==> Direct(log + [g], session, user, purpose)
    ensures ByMailbox(log, session, user, purpose) ==> ByMailbox(log + [g], session, user, purpose)
    ensures ByQr(log, session) ==> ByQr(log + [g], session)
    ensures HeldStart(log, session, user, purpose) ==> HeldStart(log + [g], session, user, purpose)
  {
    hide InOrder;
    if ByMailbox(log, session, user, purpose) {
      var f, a :| IsHeldStart(f, session, user, purpose)
               && InOrder(log, [f, MailboxApproved(a, session), DeviceCompleted(a, session)]);
      InOrderStays(log, g, [f, MailboxApproved(a, session), DeviceCompleted(a, session)]);
    }
    if ByQr(log, session) {
      var q, d :| InOrder(log, [Scanned(q, session, d), Approved(q, session, d), Completed(q, session)]);
      InOrderStays(log, g, [Scanned(q, session, d), Approved(q, session, d), Completed(q, session)]);
    }
  }

  lemma MailboxGrows(log: seq<Fact>, g: Fact, approval: Id, session: Id, user: Id, purpose: Purpose)
    requires MailboxSaidYes(log, approval, session, user, purpose)
    ensures MailboxSaidYes(log + [g], approval, session, user, purpose)
  {
    hide InOrder;
    var f :| IsHeldStart(f, session, user, purpose) && InOrder(log, [f, MailboxApproved(approval, session)]);
    InOrderStays(log, g, [f, MailboxApproved(approval, session)]);
  }

  lemma SessionShownGrows(log: seq<Fact>, g: Fact, id: Id, row: Session)
    requires SessionShown(log, id, row)
    ensures SessionShown(log + [g], id, row)
  {
    hide Direct, ByMailbox, ByQr, HeldStart;
    EvidenceGrows(log, g, id, row.user, row.purpose);
  }

  lemma ApprovalShownGrows(log: seq<Fact>, g: Fact, sessions: Sessions, id: Id, row: Approval)
    requires ApprovalShown(log, sessions, id, row)
    ensures ApprovalShown(log + [g], sessions, id, row)
  {
    hide Direct, ByMailbox, ByQr, HeldStart, MailboxSaidYes;
    EvidenceGrows(log, g, row.session, row.user, sessions[row.session].purpose);
    if row.status == ApprovalApproved {
      MailboxGrows(log, g, id, row.session, row.user, sessions[row.session].purpose);
    }
  }

  lemma QrShownGrows(log: seq<Fact>, g: Fact, id: Id, row: Qr)
    requires QrShown(log, id, row)
    ensures QrShown(log + [g], id, row)
  {
    hide InOrder;
    if row.status == QrScanned {
      InOrderStays(log, g, [Scanned(id, row.session, row.scannedBy.value)]);
    }
    if row.status == QrApproved {
      InOrderStays(log, g, [Scanned(id, row.session, row.scannedBy.value), Approved(id, row.session, row.scannedBy.value)]);
    }
  }

  lemma LogGrows(s: State, g: Fact)
    requires Shown(s)
    ensures Shown(Log(s, g))
  {
    hide SessionShown, ApprovalShown, QrShown;
    forall i | i in s.sessions
      ensures SessionShown(s.log + [g], i, s.sessions[i])
    {
      SessionShownGrows(s.log, g, i, s.sessions[i]);
    }
    forall a | a in s.approvals
      ensures ApprovalShown(s.log + [g], s.sessions, a, s.approvals[a])
    {
      ApprovalShownGrows(s.log, g, s.sessions, a, s.approvals[a]);
    }
    forall q | q in s.qrs
      ensures QrShown(s.log + [g], q, s.qrs[q])
    {
      QrShownGrows(s.log, g, q, s.qrs[q]);
    }
  }

  // ---------------------------------------------------- one row at a time

  lemma ShowSession(s: State, id: Id, row: Session)
    requires Shown(s) && SessionShown(s.log, id, row)
    requires id in s.sessions ==> row.purpose == s.sessions[id].purpose
    ensures Shown(WithSession(s, id, row))
  {
    hide SessionShown, QrShown, Evidence, HeldStart, MailboxSaidYes;
    var t := WithSession(s, id, row);
    forall a | a in s.approvals
      ensures ApprovalShown(t.log, t.sessions, a, t.approvals[a])
    {
      assert ApprovalShown(s.log, s.sessions, a, s.approvals[a]);
    }
  }

  lemma ShowApproval(s: State, id: Id, row: Approval)
    requires Shown(s) && ApprovalShown(s.log, s.sessions, id, row)
    ensures Shown(WithApproval(s, id, row))
  {
    hide SessionShown, QrShown, ApprovalShown;
  }

  lemma ShowQr(s: State, id: Id, row: Qr)
    requires Shown(s) && QrShown(s.log, id, row)
    ensures Shown(WithQr(s, id, row))
  {
    hide SessionShown, QrShown, ApprovalShown;
  }

  /** Any number of rows may lose the standing that called for evidence. */
  lemma ShowSettled(s: State, t: State)
    requires Shown(s) && t.log == s.log
    requires t.sessions.Keys == s.sessions.Keys && t.approvals.Keys == s.approvals.Keys && t.qrs.Keys == s.qrs.Keys
    requires forall i :: i in t.sessions ==> t.sessions[i] == s.sessions[i] || t.sessions[i] == Revoked(s.sessions[i])
    requires forall a :: a in t.approvals ==>
               || t.approvals[a] == s.approvals[a]
               || (&& t.approvals[a].session == s.approvals[a].session
                   && t.approvals[a].status != ApprovalPending && t.approvals[a].status != ApprovalApproved)
    requires forall q :: q in t.qrs ==> t.qrs[q] == s.qrs[q] || t.qrs[q] == s.qrs[q].(status := QrRevoked)
    ensures Shown(t)
  {
    hide Evidence, HeldStart, MailboxSaidYes, InOrder;
    forall a | a in t.approvals
      ensures ApprovalShown(t.log, t.sessions, a, t.approvals[a])
    {
      assert ApprovalShown(s.log, s.sessions, a, s.approvals[a]);
    }
    forall q | q in t.qrs
      ensures QrShown(t.log, q, t.qrs[q])
    {
      assert QrShown(s.log, q, s.qrs[q]);
    }
  }

  lemma ShowUnrelated(s: State, t: State)
    requires Shown(s) && t.log == s.log && t.sessions == s.sessions && t.approvals == s.approvals && t.qrs == s.qrs
    ensures Shown(t)
  {
    hide SessionShown, ApprovalShown, QrShown;
  }
}
