/** What a request leaves alone in the session rows it is not about. */
module IdentityRows {
  import opened IdentityModel
  import opened IdentityInvariants
  import opened IdentityProtocol

  /** The request presents the secret that rotates this session's refresh token. */
  predicate Rotates(s: State, e: Event, id: Id) {
    || (e.request.RefreshWith? && HoldsRefresh(s, e.request.proof, id))
    || (e.request.DeviceComplete? && HoldsDeviceProof(s, e.request.approval, e.request.proof)
        && s.approvals[e.request.approval].session == id)
  }

  /** Expiry never moves, and an activation session that is past its mailbox approval
      is not held again. */
  predicate RowHolds(row: Session, later: Session) {
    && later.expiresAt == row.expiresAt
    && (row.purpose == AUTHENTICATOR_ACTIVATION && row.status != PENDING_DEVICE_APPROVAL ==>
          later.status != PENDING_DEVICE_APPROVAL)
  }

  predicate RowSpared(row: Session, later: Session) {
    RowHolds(row, later) && later.refreshHash == row.refreshHash
  }

  ghost predicate Spares(s: State, t: State) {
    forall id :: id in s.sessions ==> id in t.sessions && RowSpared(s.sessions[id], t.sessions[id])
  }

  lemma OneSpared(s: State, t: State, id: Id)
    requires t.sessions == s.sessions
             || (id in t.sessions && t.sessions == s.sessions[id := t.sessions[id]]
                 && (id in s.sessions ==> RowSpared(s.sessions[id], t.sessions[id])))
    ensures Spares(s, t)
  {
  }

  lemma SignInSpares(c: Config, s: State, x: Ctx, user: Id, accepted: bool, session: Id, refresh: Token)
    requires session !in s.sessions
    ensures Spares(s, SignIn(c, s, x, user, accepted, session, refresh).0)
    ensures Spares(s, Register(c, s, x, user, session, refresh).0)
  {
    hide MayLogIn;
  }

  lemma VerifyEmailOtpSpares(
    c: Config, s: State, x: Ctx, user: Id, reviewer: bool, device: DeviceClaim, mail: Mail,
    session: Id, refresh: Token, approval: Id, deviceToken: Token, ownerToken: Token)
    requires session !in s.sessions
    ensures Spares(s, VerifyEmailOtp(c, s, x, user, reviewer, device, mail, session, refresh, approval, deviceToken, ownerToken).0)
  {
    hide KnownDevice, RevokeTrusted, CancelReplaced, MarkLapsed, HoldForApproval, RowSpared;
    hide RowHolds;
    forall id | id in s.sessions ensures RowSpared(s.sessions[id], s.sessions[id]) { SameRow(s.sessions[id]); }
  }

  lemma SameRow(row: Session)
    ensures RowSpared(row, row)
  {
  }

  /** Only Office sessions are asked for a code, so only they can be held by it. */
  lemma VerifyMfaSpares(
    c: Config, s: State, x: Ctx, claims: Option<Claims>, matched: Option<nat>, device: DeviceClaim, mail: Mail,
    approval: Id, deviceToken: Token, ownerToken: Token)
    ensures Spares(s, VerifyMfa(c, s, x, claims, matched, device, mail, approval, deviceToken, ownerToken).0)
  {
    hide Authenticate, Spares;
    var t := VerifyMfa(c, s, x, claims, matched, device, mail, approval, deviceToken, ownerToken).0;
    if Authenticate(s, x, claims, false, {OFFICE}).None? {
      Admitted(s, x, claims, false, {OFFICE});
      var sid, user := claims.value.session, claims.value.user;
      var promoted := s.sessions[sid].(aal := AAL2, failed := 0);
      if matched.Some? {
        AdmitBrowserSpares(c, WithUser(WithSession(s, sid, promoted), user, s.users[user].(lastCounter := matched)),
                           x, sid, user, matched.value, device, mail, approval, deviceToken, ownerToken);
      }
      hide AdmitBrowser;
      if t.sessions != s.sessions && matched.Some? {
        assert t.sessions == s.sessions[sid := promoted][sid := t.sessions[sid]];
        assert t.sessions == s.sessions[sid := t.sessions[sid]];
      }
      OneSpared(s, t, sid);
    } else {
      OneSpared(s, t, "");
    }
  }

  lemma AdmitBrowserSpares(
    c: Config, s: State, x: Ctx, sid: Id, user: Id, counter: nat, device: DeviceClaim, mail: Mail,
    approval: Id, deviceToken: Token, ownerToken: Token)
    requires sid in s.sessions
    ensures var t := AdmitBrowser(c, s, x, sid, user, counter, device, mail, approval, deviceToken, ownerToken).0;
            t.sessions[sid].expiresAt == s.sessions[sid].expiresAt && t.sessions[sid].purpose == s.sessions[sid].purpose
  {
    hide KnownDevice;
  }

  lemma QrSpares(c: Config, s: State, x: Ctx, claims: Option<Claims>, qr: Id, first: Token, second: Token)
    ensures Spares(s, CreateQr(c, s, x, claims, qr, first, second).0)
    ensures Spares(s, ReadQr(s, x, qr, first).0)
    ensures Spares(s, CancelQr(s, qr, first).0)
  {
    hide Authenticate, Spares;
    OneSpared(s, CreateQr(c, s, x, claims, qr, first, second).0, "");
    OneSpared(s, ReadQr(s, x, qr, first).0, "");
    OneSpared(s, CancelQr(s, qr, first).0, "");
  }

  lemma ScanSpares(s: State, x: Ctx, claims: Option<Claims>, device: DeviceClaim, qr: Id, proof: Token)
    ensures Spares(s, ScanQr(s, x, claims, device, qr, proof).0)
  {
    hide Authenticate, TrustLapsed, Spares;
    OneSpared(s, ScanQr(s, x, claims, device, qr, proof).0, "");
  }

  lemma DecideQrSpares(s: State, x: Ctx, claims: Option<Claims>, device: DeviceClaim, qr: Id, approve: bool)
    ensures Spares(s, DecideQr(s, x, claims, device, qr, approve).0)
  {
    hide Authenticate, TrustLapsed, Spares;
    OneSpared(s, DecideQr(s, x, claims, device, qr, approve).0, if qr in s.qrs then s.qrs[qr].session else "");
  }

  lemma CompleteQrSpares(s: State, x: Ctx, qr: Id, proof: Token)
    ensures Spares(s, CompleteQr(s, x, qr, proof).0)
  {
    hide Spares;
    OneSpared(s, CompleteQr(s, x, qr, proof).0, if qr in s.qrs then s.qrs[qr].session else "");
  }

  lemma ActivationSpares(c: Config, s: State, x: Ctx, claims: Option<Claims>, activation: Id, proof: Token)
    ensures Spares(s, RequestActivation(c, s, x, claims, activation, proof).0)
    ensures Spares(s, ClaimActivation(s, x, activation, proof).0)
  {
    hide Authenticate, CancelLive, ActivationStillBound, MayLogIn, TrustLapsed, Spares;
    OneSpared(s, RequestActivation(c, s, x, claims, activation, proof).0, "");
    OneSpared(s, ClaimActivation(s, x, activation, proof).0, "");
  }

  lemma AccountSpares(s: State, x: Ctx, claims: Option<Claims>, user: Id, flag: bool)
    ensures Spares(s, RecoverPassword(s, user, flag).0)
    ensures Spares(s, IssueRecovery(s, x, claims, user, flag).0)
    ensures Spares(s, ResetMfa(s, x, claims, user, flag).0)
    ensures Spares(s, BreakGlass(s, user, flag).0)
  {
    hide Authenticate, CancelLive, RevokeActive, Spares;
    RevokingSpares(s, s, user, None);
    RevokingSpares(s, CloseAccount(s, user), user, None);
    RevokingSpares(s, RemoveFactor(s, user), user, None);
  }

  lemma PasswordSpares(s: State, x: Ctx, claims: Option<Claims>, flag: bool)
    ensures Spares(s, ChangePassword(s, x, claims, flag).0)
  {
    hide CancelLive, RevokeActive, Spares, MayLogIn;
    if claims.Some? {
      RevokingSpares(s, ChangePassword(s, x, claims, flag).0, claims.value.user, Some(claims.value.session));
    }
    RevokingSpares(s, s, "", None);
  }

  lemma RevokingSpares(s: State, t: State, user: Id, spare: Option<Id>)
    ensures t.sessions == s.sessions || t.sessions == RevokeActive(s.sessions, user, spare) ==> Spares(s, t)
  {
  }

  lemma SignOutSpares(s: State, x: Ctx, claims: Option<Claims>)
    ensures Spares(s, SignOut(s, x, claims).0)
  {
    hide CancelLive, MayLogIn, Spares;
    OneSpared(s, SignOut(s, x, claims).0, if claims.Some? then claims.value.session else "");
  }

  lemma RevokeSessionSpares(s: State, x: Ctx, claims: Option<Claims>, target: Id)
    ensures Spares(s, RevokeSession(s, x, claims, target).0)
  {
    hide Authenticate, Spares;
    OneSpared(s, RevokeSession(s, x, claims, target).0, target);
  }

  lemma DeviceSpares(s: State, x: Ctx, approval: Id, proof: Token, approve: bool)
    ensures Spares(s, ReviewDevice(s, x, approval, proof).0)
    ensures Spares(s, ReadDevice(s, x, approval, proof).0)
    ensures Spares(s, DecideDevice(s, x, approval, proof, approve).0)
  {
    hide ApprovalLapsed, Spares;
    var session := if approval in s.approvals then s.approvals[approval].session else "";
    OneSpared(s, ReviewDevice(s, x, approval, proof).0, session);
    OneSpared(s, ReadDevice(s, x, approval, proof).0, session);
    OneSpared(s, DecideDevice(s, x, approval, proof, approve).0, session);
  }

  lemma RevokeDeviceSpares(s: State, x: Ctx, claims: Option<Claims>, approval: Id, proof: Token)
    ensures Spares(s, RevokeDevice(s, x, claims, approval, proof).0)
  {
    hide CancelLive, MayLogIn, Spares;
    OneSpared(s, RevokeDevice(s, x, claims, approval, proof).0, if approval in s.approvals then s.approvals[approval].session else "");
  }

  /** Nothing but a rotation changes a session's refresh token. */
  ghost predicate StepRow(s: State, e: Event, t: State, id: Id)
    requires id in s.sessions
  {
    && id in t.sessions && RowHolds(s.sessions[id], t.sessions[id])
    && (!Rotates(s, e, id) ==> t.sessions[id].refreshHash == s.sessions[id].refreshHash)
  }

  lemma SparedRow(s: State, e: Event, t: State, id: Id)
    requires id in s.sessions && Spares(s, t)
    ensures StepRow(s, e, t, id)
  {
  }

  lemma CompleteDeviceOnRow(c: Config, s: State, e: Event, id: Id)
    requires id in s.sessions && e.request.DeviceComplete?
    ensures StepRow(s, e, CompleteDevice(c, s, e.ctx, e.request.approval, e.request.proof, e.mint.refresh).0, id)
  {
    hide RevokeTrusted, CancelReplaced, TrustLapsed, IsReplaced, ApprovalLapsed;
  }

  lemma RefreshOnRow(s: State, e: Event, id: Id)
    requires id in s.sessions && e.request.RefreshWith?
    ensures StepRow(s, e, Refresh(s, e.ctx, e.request.proof, e.mint.refresh).0, id)
  {
    hide MayLogIn;
  }

  lemma StepSpares(c: Config, w: World, e: Event)
    requires FreshMint(w, e.mint) && !e.request.RefreshWith? && !e.request.DeviceComplete?
    ensures Spares(w.db, Step(c, w.db, e).0)
  {
    hide SignIn, Register, VerifyEmailOtp, CreateQr, ReadQr, CancelQr, ScanQr, DecideQr, CompleteQr, Spares;
    hide RequestActivation, ClaimActivation, RevokeSession, ChangePassword, RecoverPassword, IssueRecovery, ResetMfa;
    hide BreakGlass;
    hide Refresh, SignOut, VerifyMfa, ReviewDevice, DecideDevice, ReadDevice, RevokeDevice, CompleteDevice;
    var Event(x, m, request) := e;
    var s := w.db;
    match request
    case SignInWith(user, accepted) => SignInSpares(c, s, x, user, accepted, m.id, m.refresh);
    case RegisterAs(user) => SignInSpares(c, s, x, user, true, m.id, m.refresh);
    case VerifyEmailCode(user, reviewer, device, mail) =>
      VerifyEmailOtpSpares(c, s, x, user, reviewer, device, mail, m.id, m.refresh, m.approval, m.first, m.second);
    case StartQr(claims) => QrSpares(c, s, x, claims, m.id, m.first, m.second);
    case QrStatusOf(qr, proof) => QrSpares(c, s, x, None, qr, proof, proof);
    case QrCancel(qr, proof) => QrSpares(c, s, x, None, qr, proof, proof);
    case QrScan(claims, device, qr, proof) => ScanSpares(s, x, claims, device, qr, proof);
    case QrDecide(claims, device, qr, approve) => DecideQrSpares(s, x, claims, device, qr, approve);
    case QrComplete(qr, proof) => CompleteQrSpares(s, x, qr, proof);
    case AskActivation(claims) => ActivationSpares(c, s, x, claims, m.id, m.first);
    case Claim(activation, proof) => ActivationSpares(c, s, x, None, activation, proof);
    case EndSession(claims, target) => RevokeSessionSpares(s, x, claims, target);
    case NewPassword(claims, accepted) => PasswordSpares(s, x, claims, accepted);
    case Recover(user, accepted) => AccountSpares(s, x, None, user, accepted);
    case RecoveryLink(claims, user, permitted) => AccountSpares(s, x, claims, user, permitted);
    case FactorReset(claims, user, permitted) => AccountSpares(s, x, claims, user, permitted);
    case FounderRecovery(user, keyAccepted) => AccountSpares(s, x, None, user, keyAccepted);
    case SignOutOf(claims) => SignOutSpares(s, x, claims);
    case Totp(claims, matched, device, mail) =>
      VerifyMfaSpares(c, s, x, claims, matched, device, mail, m.approval, m.first, m.second);
    case DeviceReview(approval, proof) => DeviceSpares(s, x, approval, proof, true);
    case DeviceDecide(approval, proof, approve) => DeviceSpares(s, x, approval, proof, approve);
    case DeviceStatusOf(approval, proof) => DeviceSpares(s, x, approval, proof, true);
    case DeviceRevoke(claims, approval, proof) => RevokeDeviceSpares(s, x, claims, approval, proof);
    case _ => assert false;
  }

  /** One step on the row of one session. */
  lemma StepOnRow(c: Config, w: World, e: Event, id: Id)
    requires FreshMint(w, e.mint) && id in w.db.sessions
    ensures StepRow(w.db, e, Step(c, w.db, e).0, id)
  {
    hide StepRow, Spares, Refresh, CompleteDevice;
    if e.request.RefreshWith? {
      RefreshOnRow(w.db, e, id);
    } else if e.request.DeviceComplete? {
      CompleteDeviceOnRow(c, w.db, e, id);
    } else {
      StepSpares(c, w, e);
      hide Step;
      SparedRow(w.db, e, Step(c, w.db, e).0, id);
    }
  }
}
