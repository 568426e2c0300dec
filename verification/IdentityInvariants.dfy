/** What every request keeps, and how a change of one table keeps it. */
module IdentityInvariants {
  import opened IdentityModel

  type Sessions = map<Id, Session>
  type Approvals = map<Id, Approval>
  type Qrs = map<Id, Qr>
  type Activations = map<Id, Activation>

  /** Every approval belongs to one aal2 session of its user. */
  ghost predicate ApprovalsLinked(sessions: Sessions, approvals: Approvals) {
    forall a :: a in approvals ==> ApprovalLinked(sessions, approvals[a])
  }

  predicate ApprovalLinked(sessions: Sessions, row: Approval) {
    row.session in sessions && sessions[row.session].user == row.user && sessions[row.session].aal == AAL2
  }

  /** `session_id` is unique. */
  ghost predicate OneApprovalPerSession(approvals: Approvals) {
    forall a, b :: a in approvals && b in approvals && approvals[a].session == approvals[b].session ==> a == b
  }

  ghost predicate ActivationsLinked(sessions: Sessions, approvals: Approvals, activations: Activations) {
    forall v :: v in activations ==> ActivationLinked(sessions, approvals, activations[v])
  }

  predicate ActivationLinked(sessions: Sessions, approvals: Approvals, row: Activation) {
    && row.session in sessions && row.device in approvals
    && sessions[row.session].user == row.user
    && sessions[row.session].purpose == AUTHENTICATOR_ACTIVATION
    && approvals[row.device].user == row.user
    && approvals[row.device].session == row.session
  }

  predicate TrustedFor(row: Approval, user: Id) { row.status == Trusted && row.user == user }

  /** One trusted device per user. */
  ghost predicate OneTrusted(approvals: Approvals) {
    forall a, b :: a in approvals && b in approvals ==>
      TrustedFor(approvals[a], approvals[a].user) && TrustedFor(approvals[b], approvals[a].user) ==> a == b
  }

  ghost predicate TrustHasTerm(approvals: Approvals) {
    forall a :: a in approvals && approvals[a].status == Trusted ==> approvals[a].trustedUntil.Some?
  }

  /** The session and the device of an unused activation are still good. */
  predicate Bound(sessions: Sessions, approvals: Approvals, row: Activation, now: Time) {
    && row.session in sessions && row.device in approvals
    && sessions[row.session].status == ACTIVE && sessions[row.session].aal == AAL2
    && DeviceGood(approvals[row.device], now)
  }

  predicate DeviceGood(row: Approval, now: Time) {
    row.status == Trusted || (row.status == ApprovalExpired && TrustLapsed(row, now))
  }

  /** An unused activation is bound to a live session and to a device that is
      trusted or whose trust has lapsed. */
  ghost predicate LiveBound(sessions: Sessions, approvals: Approvals, activations: Activations, now: Time) {
    forall v :: v in activations && activations[v].status == Live ==> Bound(sessions, approvals, activations[v], now)
  }

  /** At most one unused activation per user. */
  ghost predicate OneLive(activations: Activations) {
    forall v, w :: v in activations && w in activations ==>
      LiveFor(activations[v], activations[v].user) && LiveFor(activations[w], activations[v].user) ==> v == w
  }

  predicate LiveFor(row: Activation, user: Id) { row.status == Live && row.user == user }

  predicate SessionLegal(c: Config, row: Session) {
    && (row.status == PENDING_DEVICE_APPROVAL ==> row.aal == AAL2)
    && (row.aal == AAL1 ==> row.purpose == OFFICE)
    && (row.aal == AAL1 && row.status == ACTIVE ==> row.failed < c.mfaMaxFailed)
  }

  ghost predicate SessionsLegal(c: Config, sessions: Sessions) {
    forall i :: i in sessions ==> SessionLegal(c, sessions[i])
  }

  predicate NamesScanner(approvals: Approvals, row: Qr) {
    row.scannedBy.Some? && row.scannedBy.value in approvals && approvals[row.scannedBy.value].user == row.user
  }

  predicate QrLinked(sessions: Sessions, approvals: Approvals, row: Qr) {
    && row.session in sessions
    && sessions[row.session].user == row.user
    && sessions[row.session].purpose == OFFICE
    && (row.status == QrConsumed ==> sessions[row.session].aal == AAL2)
    && (row.status in {QrScanned, QrApproved, QrConsumed} ==> NamesScanner(approvals, row))
  }

  ghost predicate QrsLinked(sessions: Sessions, approvals: Approvals, qrs: Qrs) {
    forall q :: q in qrs ==> QrLinked(sessions, approvals, qrs[q])
  }

  predicate QrOpen(row: Qr, session: Id) {
    row.session == session && (row.status == QrPending || row.status == QrScanned)
  }

  predicate QrSpent(row: Qr, session: Id) { row.session == session && row.status == QrConsumed }

  /** Per session: at most one open QR request and at most one consumed. */
  ghost predicate OneQr(qrs: Qrs) {
    && (forall q, r :: q in qrs && r in qrs ==>
          QrOpen(qrs[q], qrs[q].session) && QrOpen(qrs[r], qrs[q].session) ==> q == r)
    && (forall q, r :: q in qrs && r in qrs ==>
          QrSpent(qrs[q], qrs[q].session) && QrSpent(qrs[r], qrs[q].session) ==> q == r)
  }

  ghost predicate Inv(c: Config, s: State, now: Time) {
    && ApprovalsLinked(s.sessions, s.approvals)
    && OneApprovalPerSession(s.approvals)
    && ActivationsLinked(s.sessions, s.approvals, s.activations)
    && OneTrusted(s.approvals)
    && TrustHasTerm(s.approvals)
    && LiveBound(s.sessions, s.approvals, s.activations, now)
    && OneLive(s.activations)
    && SessionsLegal(c, s.sessions)
    && QrsLinked(s.sessions, s.approvals, s.qrs)
    && OneQr(s.qrs)
  }

  // ---------------------------------------------------- one table at a time

  /** Sessions keep their user and purpose, are never removed, never lose aal2, and
      once revoked stay as they are in status and assurance. */
  ghost predicate SessionsEvolve(sessions: Sessions, later: Sessions) {
    forall i :: i in sessions ==> i in later && SessionEvolves(sessions[i], later[i])
  }

  predicate SessionEvolves(row: Session, later: Session) {
    && later.user == row.user && later.purpose == row.purpose
    && (row.aal == AAL2 ==> later.aal == AAL2)
    && (row.status == REVOKED ==> later.status == REVOKED && later.aal == row.aal)
  }

  lemma SessionsKeepLinks(sessions: Sessions, later: Sessions, approvals: Approvals, activations: Activations, qrs: Qrs)
    requires SessionsEvolve(sessions, later)
    ensures ApprovalsLinked(sessions, approvals) ==> ApprovalsLinked(later, approvals)
    ensures ActivationsLinked(sessions, approvals, activations) ==> ActivationsLinked(later, approvals, activations)
    ensures QrsLinked(sessions, approvals, qrs) ==> QrsLinked(later, approvals, qrs)
  {
  }

  lemma ChangeSessions(c: Config, s: State, now: Time, later: Sessions)
    requires Inv(c, s, now)
    requires SessionsEvolve(s.sessions, later) && SessionsLegal(c, later)
    requires LiveBound(later, s.approvals, s.activations, now)
    ensures Inv(c, s.(sessions := later), now)
  {
    hide ApprovalsLinked, ActivationsLinked, QrsLinked, SessionsEvolve, SessionsLegal, LiveBound;
    hide OneApprovalPerSession, OneTrusted, TrustHasTerm, OneLive, OneQr;
    SessionsKeepLinks(s.sessions, later, s.approvals, s.activations, s.qrs);
  }

  /** Approvals keep their user and session and are never removed. */
  ghost predicate ApprovalsEvolve(approvals: Approvals, later: Approvals) {
    forall a :: a in approvals ==>
      a in later && later[a].user == approvals[a].user && later[a].session == approvals[a].session
  }

  lemma ApprovalsKeepLinks(sessions: Sessions, approvals: Approvals, later: Approvals, activations: Activations,
                           qrs: Qrs)
    requires ApprovalsEvolve(approvals, later)
    ensures ActivationsLinked(sessions, approvals, activations) ==> ActivationsLinked(sessions, later, activations)
    ensures QrsLinked(sessions, approvals, qrs) ==> QrsLinked(sessions, later, qrs)
  {
  }

  lemma ChangeApprovals(c: Config, s: State, now: Time, later: Approvals)
    requires Inv(c, s, now)
    requires ApprovalsEvolve(s.approvals, later)
    requires ApprovalsLinked(s.sessions, later) && OneApprovalPerSession(later)
    requires OneTrusted(later) && TrustHasTerm(later)
    requires LiveBound(s.sessions, later, s.activations, now)
    ensures Inv(c, s.(approvals := later), now)
  {
    hide ApprovalsLinked, ActivationsLinked, QrsLinked, ApprovalsEvolve, SessionsLegal, LiveBound;
    hide OneApprovalPerSession, OneTrusted, TrustHasTerm, OneLive, OneQr;
    ApprovalsKeepLinks(s.sessions, s.approvals, later, s.activations, s.qrs);
  }

  lemma ChangeActivations(c: Config, s: State, now: Time, later: Activations)
    requires Inv(c, s, now)
    requires ActivationsLinked(s.sessions, s.approvals, later)
    requires LiveBound(s.sessions, s.approvals, later, now) && OneLive(later)
    ensures Inv(c, s.(activations := later), now)
  {
    hide ApprovalsLinked, ActivationsLinked, QrsLinked, SessionsLegal, LiveBound;
    hide OneApprovalPerSession, OneTrusted, TrustHasTerm, OneLive, OneQr;
  }

  lemma ChangeQrs(c: Config, s: State, now: Time, later: Qrs)
    requires Inv(c, s, now)
    requires QrsLinked(s.sessions, s.approvals, later) && OneQr(later)
    ensures Inv(c, s.(qrs := later), now)
  {
    hide ApprovalsLinked, ActivationsLinked, QrsLinked, SessionsLegal, LiveBound;
    hide OneApprovalPerSession, OneTrusted, TrustHasTerm, OneLive, OneQr;
  }

  // ------------------------------------------------------ one row at a time

  /** No unused activation depends on this session. */
  ghost predicate NoneLiveOn(activations: Activations, session: Id) {
    forall v :: v in activations && activations[v].status == Live ==> activations[v].session != session
  }

  ghost predicate NoneTrusted(approvals: Approvals, user: Id, spare: Option<Id>) {
    forall a :: a in approvals && TrustedFor(approvals[a], user) ==> spare == Some(a)
  }

  lemma PutSession(c: Config, s: State, now: Time, id: Id, row: Session)
    requires Inv(c, s, now) && id in s.sessions
    requires SessionEvolves(s.sessions[id], row) && SessionLegal(c, row)
    requires (row.status == ACTIVE && row.aal == AAL2) || NoneLiveOn(s.activations, id)
    ensures Inv(c, WithSession(s, id, row), now)
    ensures SessionsEvolve(s.sessions, s.sessions[id := row])
  {
    hide QrsLinked, OneQr, OneTrusted, TrustHasTerm, ApprovalsLinked, ActivationsLinked, OneApprovalPerSession, OneLive;
    var later := s.sessions[id := row];
    assert LiveBound(later, s.approvals, s.activations, now);
    assert SessionsLegal(c, later);
    ChangeSessions(c, s, now, later);
  }

  lemma PutNewSession(c: Config, s: State, now: Time, id: Id, row: Session)
    requires Inv(c, s, now) && id !in s.sessions
    requires SessionLegal(c, row)
    ensures Inv(c, WithSession(s, id, row), now)
    ensures SessionsEvolve(s.sessions, s.sessions[id := row])
    ensures forall a :: a in s.approvals ==> s.approvals[a].session != id
    ensures NoneLiveOn(s.activations, id)
  {
    var later := s.sessions[id := row];
    assert LiveBound(later, s.approvals, s.activations, now);
    assert SessionsLegal(c, later);
    ChangeSessions(c, s, now, later);
  }

  /** Ending any number of sessions that no unused activation depends on. */
  lemma EndSessions(c: Config, s: State, now: Time, later: Sessions)
    requires Inv(c, s, now) && later.Keys == s.sessions.Keys
    requires forall i :: i in later ==>
               later[i] == s.sessions[i] || (later[i] == Revoked(s.sessions[i]) && NoneLiveOn(s.activations, i))
    ensures Inv(c, s.(sessions := later), now)
    ensures SessionsEvolve(s.sessions, later)
  {
    hide QrsLinked, OneQr, OneTrusted, TrustHasTerm, ApprovalsLinked, ActivationsLinked, OneApprovalPerSession, OneLive;
    assert LiveBound(later, s.approvals, s.activations, now);
    assert SessionsLegal(c, later);
    ChangeSessions(c, s, now, later);
  }

  lemma PutApproval(c: Config, s: State, now: Time, id: Id, row: Approval)
    requires Inv(c, s, now) && id in s.approvals
    requires row.user == s.approvals[id].user && row.session == s.approvals[id].session
    requires row.status == Trusted ==> row.trustedUntil.Some? && NoneTrusted(s.approvals, row.user, Some(id))
    requires DeviceGood(row, now) || NoneLiveOn(s.activations, row.session)
    ensures Inv(c, WithApproval(s, id, row), now)
  {
    hide QrsLinked, OneLive, OneQr, SessionsLegal;
    var later := s.approvals[id := row];
    assert LiveBound(s.sessions, later, s.activations, now) by {
      forall v | v in s.activations && s.activations[v].status == Live
        ensures Bound(s.sessions, later, s.activations[v], now)
      {
        assert ActivationLinked(s.sessions, s.approvals, s.activations[v]);
      }
    }
    assert OneTrusted(later);
    ChangeApprovals(c, s, now, later);
  }

  lemma PutNewApproval(c: Config, s: State, now: Time, id: Id, row: Approval)
    requires Inv(c, s, now) && id !in s.approvals
    requires ApprovalLinked(s.sessions, row)
    requires forall a :: a in s.approvals ==> s.approvals[a].session != row.session
    requires row.status == Trusted ==> row.trustedUntil.Some? && NoneTrusted(s.approvals, row.user, None)
    ensures Inv(c, WithApproval(s, id, row), now)
  {
    hide QrsLinked, OneLive, OneQr, SessionsLegal;
    var later := s.approvals[id := row];
    assert LiveBound(s.sessions, later, s.activations, now);
    assert OneTrusted(later);
    ChangeApprovals(c, s, now, later);
  }

  /** Withdrawing trust where no unused activation depends on it. */
  lemma Untrust(c: Config, s: State, now: Time, later: Approvals)
    requires Inv(c, s, now) && later.Keys == s.approvals.Keys
    requires forall a :: a in later ==>
               || later[a] == s.approvals[a]
               || (&& later[a] == s.approvals[a].(status := ApprovalRevoked, trustedUntil := Some(now))
                   && NoneLiveOn(s.activations, s.approvals[a].session))
    ensures Inv(c, s.(approvals := later), now)
  {
    hide QrsLinked, OneLive, OneQr, SessionsLegal;
    assert LiveBound(s.sessions, later, s.activations, now) by {
      forall v | v in s.activations && s.activations[v].status == Live
        ensures Bound(s.sessions, later, s.activations[v], now)
      {
        assert ActivationLinked(s.sessions, s.approvals, s.activations[v]);
      }
    }
    assert OneTrusted(later);
    ChangeApprovals(c, s, now, later);
  }

  lemma PutQr(c: Config, s: State, now: Time, id: Id, row: Qr)
    requires Inv(c, s, now) && id in s.qrs
    requires row.user == s.qrs[id].user && row.session == s.qrs[id].session
    requires QrLinked(s.sessions, s.approvals, row)
    requires QrOpen(row, row.session) ==> QrOpen(s.qrs[id], row.session)
    requires row.status == QrConsumed ==> forall q :: q in s.qrs && QrSpent(s.qrs[q], row.session) ==> q == id
    ensures Inv(c, WithQr(s, id, row), now)
  {
    hide ApprovalsLinked, ActivationsLinked, LiveBound, OneApprovalPerSession, OneTrusted, TrustHasTerm, OneLive;
    hide SessionsLegal;
    var later := s.qrs[id := row];
    assert OneQr(later);
    ChangeQrs(c, s, now, later);
  }

  lemma PutNewQr(c: Config, s: State, now: Time, id: Id, row: Qr)
    requires Inv(c, s, now) && id !in s.qrs
    requires row.status == QrPending && QrLinked(s.sessions, s.approvals, row)
    requires forall q :: q in s.qrs ==> !QrOpen(s.qrs[q], row.session)
    ensures Inv(c, WithQr(s, id, row), now)
  {
    hide ApprovalsLinked, ActivationsLinked, LiveBound, OneApprovalPerSession, OneTrusted, TrustHasTerm, OneLive;
    hide SessionsLegal;
    var later := s.qrs[id := row];
    assert OneQr(later);
    ChangeQrs(c, s, now, later);
  }

  /** Withdrawing any number of QR requests. */
  lemma WithdrawQrs(c: Config, s: State, now: Time, later: Qrs)
    requires Inv(c, s, now) && later.Keys == s.qrs.Keys
    requires forall q :: q in later ==> later[q] == s.qrs[q] || later[q] == s.qrs[q].(status := QrRevoked)
    ensures Inv(c, s.(qrs := later), now)
  {
    hide ApprovalsLinked, ActivationsLinked, LiveBound, OneApprovalPerSession, OneTrusted, TrustHasTerm, OneLive;
    hide SessionsLegal;
    assert OneQr(later);
    ChangeQrs(c, s, now, later);
  }

  predicate Withdrawn(row: Activation, later: Activation) {
    later == row || (later.status != Live && later == row.(status := later.status))
  }

  /** Using up or cancelling any number of activations. */
  lemma WithdrawActivations(c: Config, s: State, now: Time, later: Activations)
    requires Inv(c, s, now) && later.Keys == s.activations.Keys
    requires forall v :: v in later ==> Withdrawn(s.activations[v], later[v])
    ensures Inv(c, s.(activations := later), now)
  {
    hide QrsLinked, OneQr, SessionsLegal, OneTrusted, TrustHasTerm, ApprovalsLinked, OneApprovalPerSession;
    assert LiveBound(s.sessions, s.approvals, later, now);
    assert OneLive(later);
    ChangeActivations(c, s, now, later);
  }

  lemma PutNewActivation(c: Config, s: State, now: Time, id: Id, row: Activation)
    requires Inv(c, s, now) && id !in s.activations
    requires Bound(s.sessions, s.approvals, row, now) && ActivationLinked(s.sessions, s.approvals, row)
    requires forall v :: v in s.activations ==> !LiveFor(s.activations[v], row.user)
    ensures Inv(c, WithActivation(s, id, row), now)
  {
    hide QrsLinked, OneQr, SessionsLegal, OneTrusted, TrustHasTerm, ApprovalsLinked, OneApprovalPerSession;
    var later := s.activations[id := row];
    assert LiveBound(s.sessions, s.approvals, later, now);
    assert OneLive(later);
    ChangeActivations(c, s, now, later);
  }

  lemma UsersAndLogAreFree(c: Config, s: State, t: State, now: Time)
    requires Inv(c, s, now)
    requires t.sessions == s.sessions && t.approvals == s.approvals && t.qrs == s.qrs && t.activations == s.activations
    ensures Inv(c, t, now)
  {
    hide ApprovalsLinked, ActivationsLinked, QrsLinked, SessionsLegal, LiveBound;
    hide OneApprovalPerSession, OneTrusted, TrustHasTerm, OneLive, OneQr;
  }

  lemma LaterIsFine(c: Config, s: State, now: Time, later: Time)
    requires Inv(c, s, now) && now <= later
    ensures Inv(c, s, later)
  {
    hide ApprovalsLinked, ActivationsLinked, QrsLinked, SessionsLegal;
    hide OneApprovalPerSession, OneTrusted, TrustHasTerm, OneLive, OneQr;
  }
}
