/** Completing a device approval after lost replies, with any requests in between. */
module IdentityRetry {
  import opened IdentityModel
  import opened IdentityInvariants
  import opened IdentityProtocol
  import opened IdentitySafety
  import opened IdentityRows
  import opened IdentityLifecycle

  /** A completed approval: trusted, with its session ACTIVE at aal2. */
  predicate Stands(s: State, a: Id) {
    && a in s.approvals && s.approvals[a].status == Trusted && s.approvals[a].user in s.users
    && s.approvals[a].session in s.sessions
    && s.sessions[s.approvals[a].session].status == ACTIVE && s.sessions[s.approvals[a].session].aal == AAL2
  }

  /** A completed approval that ended: its session is revoked, or its trust is gone. */
  predicate Fallen(s: State, a: Id) {
    && a in s.approvals && Rank(s.approvals[a].status) >= 2 && s.approvals[a].session in s.sessions
    && (s.approvals[a].status != Trusted || s.sessions[s.approvals[a].session].status == REVOKED)
  }

  /** The request was granted and ends the approval `a` or its session: a sign-out, the
      revocation of that session, a password change made on another session, a recovery or
      factor reset of the user, the revocation of this device, or another device made
      trusted for the user. */
  ghost predicate Ends(c: Config, s: State, e: Event, a: Id) {
    a in s.approvals &&
    var row, reply := s.approvals[a], Step(c, s, e).1;
    match e.request
    case SignOutOf(claims) => reply == Accepted && claims.Some? && claims.value.session == row.session
    case EndSession(_, target) => reply == Accepted && target == row.session
    case NewPassword(claims, _) =>
      reply == Accepted && claims.Some? && claims.value.user == row.user && claims.value.session != row.session
    case Recover(user, _) => reply == Accepted && user == row.user
    case RecoveryLink(_, user, _) => reply == Accepted && user == row.user
    case FactorReset(_, user, _) => reply == Accepted && user == row.user
    case FounderRecovery(user, _) => reply == Accepted && user == row.user
    case DeviceRevoke(_, approval, _) => reply == Accepted && approval == a
    case VerifyEmailCode(user, reviewer, _, _) => reply.Issued? && reviewer && user == row.user
    case DeviceComplete(b, _) => reply.Issued? && b != a && b in s.approvals && s.approvals[b].user == row.user
    case _ => false
  }

  /** The trust has not lapsed at the time of the request. */
  predicate InTrust(s: State, a: Id, now: Time) {
    a in s.approvals && !TrustLapsed(s.approvals[a], now)
  }

  // ------------------------------------------- what a request leaves standing

  /** The approval is as it was, and its session has the status it had. */
  predicate Untouched(s: State, t: State, a: Id)
    requires a in s.approvals && s.approvals[a].session in s.sessions
  {
    var session := s.approvals[a].session;
    && a in t.approvals && t.approvals[a] == s.approvals[a]
    && session in t.sessions && t.sessions[session].status == s.sessions[session].status
    && (s.approvals[a].user in s.users ==> s.approvals[a].user in t.users)
  }

  lemma SignInUntouched(c: Config, s: State, x: Ctx, user: Id, accepted: bool, session: Id, refresh: Token, a: Id)
    requires Stands(s, a) && session !in s.sessions
    ensures Untouched(s, SignIn(c, s, x, user, accepted, session, refresh).0, a)
    ensures Untouched(s, Register(c, s, x, user, session, refresh).0, a)
  {
    hide MayLogIn;
  }

  lemma MarkLapsedUntouched(s: State, user: Id, d: DeviceClaim, now: Time, a: Id)
    requires InTrust(s, a, now)
    ensures a in MarkLapsed(s, user, d, now).approvals && MarkLapsed(s, user, d, now).approvals[a] == s.approvals[a]
  {
  }

  lemma HoldUntouched(
    c: Config, s: State, now: Time, user: Id, d: DeviceClaim, session: Id, approval: Id, deviceToken: Token, ownerToken: Token,
    mail: Mail, f: Fact, a: Id)
    requires Stands(s, a) && InTrust(s, a, now)
    requires session in s.sessions && approval !in s.approvals && session != s.approvals[a].session
    ensures var marked := MarkLapsed(s, user, d, now);
            && session in marked.sessions
            && Untouched(s, Log(HoldForApproval(c, marked, now, session, approval, deviceToken, ownerToken, mail), f), a)
  {
    MarkLapsedUntouched(s, user, d, now, a);
    hide MarkLapsed, TrustLapsed;
  }

  lemma VerifyEmailOtpUntouched(
    c: Config, s: State, x: Ctx, user: Id, reviewer: bool, device: DeviceClaim, mail: Mail,
    session: Id, refresh: Token, approval: Id, deviceToken: Token, ownerToken: Token, a: Id)
    requires Stands(s, a) && InTrust(s, a, x.now) && session !in s.sessions && approval !in s.approvals
    requires !(reviewer && user == s.approvals[a].user)
    ensures Untouched(s, VerifyEmailOtp(c, s, x, user, reviewer, device, mail, session, refresh, approval, deviceToken, ownerToken).0, a)
  {
    hide KnownDevice, MarkLapsed, HoldForApproval, CancelReplaced, TrustLapsed;
    var begun := WithSession(s, session,
      Session(user, Sha256(refresh), ACTIVE, AAL2, AUTHENTICATOR_ACTIVATION, 0, x.now + c.mobileRefreshTtl));
    HoldUntouched(c, begun, x.now, user, device, session, approval, deviceToken, ownerToken, mail, EmailVerified(session, user, Held), a);
  }

  lemma AdmitBrowserUntouched(
    c: Config, s: State, x: Ctx, sid: Id, user: Id, counter: nat, device: DeviceClaim, mail: Mail,
    approval: Id, deviceToken: Token, ownerToken: Token, a: Id)
    requires Stands(s, a) && InTrust(s, a, x.now)
    requires sid in s.sessions && approval !in s.approvals && sid != s.approvals[a].session
    ensures Untouched(s, AdmitBrowser(c, s, x, sid, user, counter, device, mail, approval, deviceToken, ownerToken).0, a)
  {
    HoldUntouched(c, s, x.now, user, device, sid, approval, deviceToken, ownerToken, mail, TotpAccepted(sid, user, counter, Held), a);
    hide KnownDevice, MarkLapsed, HoldForApproval, TrustLapsed;
  }

  lemma VerifyMfaUntouched(
    c: Config, s: State, x: Ctx, claims: Option<Claims>, matched: Option<nat>, device: DeviceClaim, mail: Mail,
    approval: Id, deviceToken: Token, ownerToken: Token, a: Id)
    requires Stands(s, a) && InTrust(s, a, x.now) && approval !in s.approvals
    ensures Untouched(s, VerifyMfa(c, s, x, claims, matched, device, mail, approval, deviceToken, ownerToken).0, a)
  {
    hide Authenticate, AdmitBrowser, TrustLapsed;
    if Authenticate(s, x, claims, false, {OFFICE}).None? {
      Admitted(s, x, claims, false, {OFFICE});
      var sid, user := claims.value.session, claims.value.user;
      if s.sessions[sid].aal == AAL1 && matched.Some? {
        var promoted := WithUser(WithSession(s, sid, s.sessions[sid].(aal := AAL2, failed := 0)),
                                 user, s.users[user].(lastCounter := Some(matched.value)));
        AdmitBrowserUntouched(c, promoted, x, sid, user, matched.value, device, mail, approval, deviceToken, ownerToken, a);
      }
    }
  }

  lemma QrsUntouched(c: Config, s: State, x: Ctx, claims: Option<Claims>, qr: Id, first: Token, second: Token, a: Id)
    requires Stands(s, a)
    ensures Untouched(s, CreateQr(c, s, x, claims, qr, first, second).0, a)
    ensures Untouched(s, ReadQr(s, x, qr, first).0, a) && Untouched(s, CancelQr(s, qr, first).0, a)
  {
    hide Authenticate, SetQr;
  }

  lemma ScanUntouched(s: State, x: Ctx, claims: Option<Claims>, device: DeviceClaim, qr: Id, proof: Token, a: Id)
    requires Stands(s, a)
    ensures Untouched(s, ScanQr(s, x, claims, device, qr, proof).0, a)
  {
    hide Authenticate, TrustLapsed, SetQr;
  }

  lemma DecideQrUntouched(s: State, x: Ctx, claims: Option<Claims>, device: DeviceClaim, qr: Id, approve: bool, a: Id)
    requires Stands(s, a)
    ensures Untouched(s, DecideQr(s, x, claims, device, qr, approve).0, a)
  {
    hide Authenticate, TrustLapsed, SetQr;
  }

  lemma CompleteQrUntouched(s: State, x: Ctx, qr: Id, proof: Token, a: Id)
    requires Stands(s, a)
    ensures Untouched(s, CompleteQr(s, x, qr, proof).0, a)
  {
    hide SetQr;
  }

  lemma ActivationUntouched(c: Config, s: State, x: Ctx, claims: Option<Claims>, activation: Id, token: Token, a: Id)
    requires Stands(s, a)
    ensures Untouched(s, RequestActivation(c, s, x, claims, activation, token).0, a)
    ensures Untouched(s, ClaimActivation(s, x, activation, token).0, a)
  {
    hide Authenticate, CancelLive, ActivationStillBound, MayLogIn, TrustLapsed;
  }

  lemma RefreshUntouched(s: State, x: Ctx, token: Token, replacement: Token, a: Id)
    requires Stands(s, a)
    ensures Untouched(s, Refresh(s, x, token, replacement).0, a)
  {
    hide MayLogIn;
  }

  lemma DevicesUntouched(s: State, x: Ctx, approval: Id, proof: Token, approve: bool, a: Id)
    requires Stands(s, a)
    ensures Untouched(s, ReviewDevice(s, x, approval, proof).0, a) && Untouched(s, ReadDevice(s, x, approval, proof).0, a)
    ensures Untouched(s, DecideDevice(s, x, approval, proof, approve).0, a)
  {
  }

  // The requests that may end it, when they do and when they do not.

  ghost predicate Decided(c: Config, s: State, e: Event, a: Id)
    requires Stands(s, a)
  {
    if Ends(c, s, e, a) then Fallen(Step(c, s, e).0, a) else Untouched(s, Step(c, s, e).0, a)
  }

  lemma SignOutDecides(c: Config, s: State, e: Event, a: Id)
    requires Stands(s, a) && e.request.SignOutOf?
    ensures Decided(c, s, e, a)
  {
    hide MayLogIn, CancelLive;
  }

  lemma EndSessionDecides(c: Config, s: State, e: Event, a: Id)
    requires Stands(s, a) && e.request.EndSession?
    ensures Decided(c, s, e, a)
  {
    hide Authenticate;
  }

  lemma PasswordDecides(c: Config, s: State, e: Event, a: Id, now: Time)
    requires Stands(s, a) && Inv(c, s, now) && e.request.NewPassword?
    ensures Decided(c, s, e, a)
  {
    assert ApprovalLinked(s.sessions, s.approvals[a]);
    hide Inv, Authenticate, CancelLive;
  }

  lemma ClosingDecides(c: Config, s: State, now: Time, user: Id, a: Id)
    requires Stands(s, a) && Inv(c, s, now)
    ensures if user == s.approvals[a].user then Fallen(CloseAccount(s, user), a) else Untouched(s, CloseAccount(s, user), a)
    ensures if user == s.approvals[a].user then Fallen(RemoveFactor(s, user), a) else Untouched(s, RemoveFactor(s, user), a)
  {
    assert ApprovalLinked(s.sessions, s.approvals[a]);
    hide Inv, CancelLive;
  }

  lemma NothingDone(s: State, a: Id)
    requires Stands(s, a)
    ensures Untouched(s, s, a)
  {
  }

  lemma RecoveryDecides(c: Config, s: State, e: Event, a: Id, now: Time)
    requires Stands(s, a) && Inv(c, s, now) && (e.request.Recover? || e.request.RecoveryLink?)
    ensures Decided(c, s, e, a)
  {
    hide Inv, Authenticate, CloseAccount, Fallen, Untouched;
    ClosingDecides(c, s, now, e.request.user, a);
    NothingDone(s, a);
  }

  lemma RemovalDecides(c: Config, s: State, e: Event, a: Id, now: Time)
    requires Stands(s, a) && Inv(c, s, now) && (e.request.FactorReset? || e.request.FounderRecovery?)
    ensures Decided(c, s, e, a)
  {
    hide Inv, Authenticate, RemoveFactor, Fallen, Untouched;
    ClosingDecides(c, s, now, e.request.user, a);
    NothingDone(s, a);
  }

  lemma RevokeDeviceDecides(c: Config, s: State, e: Event, a: Id, now: Time)
    requires Stands(s, a) && Inv(c, s, now) && e.request.DeviceRevoke?
    ensures Decided(c, s, e, a)
  {
    hide Inv, Step;
    OneSession(c, s, now, a);
    RevocationShape(c, s, e);
    var b, t := e.request.approval, Step(c, s, e).0;
    if Step(c, s, e).1 == Accepted {
      if b == a {
        assert Ends(c, s, e, a) && Fallen(t, a);
      } else {
        assert !Ends(c, s, e, a) && Untouched(s, t, a);
      }
    } else {
      NothingDone(s, a);
    }
  }

  /** What a granted device revocation has done to the tables; a refused one does nothing. */
  lemma RevocationShape(c: Config, s: State, e: Event)
    requires e.request.DeviceRevoke?
    ensures var t, b := Step(c, s, e).0, e.request.approval;
            if Step(c, s, e).1 == Accepted then
              && b in s.approvals && s.approvals[b].session in s.sessions && t.users == s.users
              && t.approvals == s.approvals[b := s.approvals[b].(status := ApprovalRevoked, trustedUntil := Some(e.ctx.now))]
              && t.sessions == s.sessions[s.approvals[b].session := Revoked(s.sessions[s.approvals[b].session])]
            else t == s
  {
    hide MayLogIn, CancelLive;
  }

  /** `session_id` is unique: no other approval is for the session of this one. */
  lemma OneSession(c: Config, s: State, now: Time, a: Id)
    requires Inv(c, s, now) && a in s.approvals
    ensures forall b :: b in s.approvals && s.approvals[b].session == s.approvals[a].session ==> b == a
  {
  }

  lemma EmailDecides(c: Config, w: World, e: Event, a: Id)
    requires Stands(w.db, a) && InTrust(w.db, a, e.ctx.now) && FreshMint(w, e.mint) && e.request.VerifyEmailCode?
    ensures Decided(c, w.db, e, a)
  {
    var VerifyEmailCode(user, reviewer, device, mail) := e.request;
    var m, s := e.mint, w.db;
    if reviewer && user == s.approvals[a].user {
      hide CancelReplaced;
    } else {
      VerifyEmailOtpUntouched(c, s, e.ctx, user, reviewer, device, mail, m.id, m.refresh, m.approval, m.first, m.second, a);
      hide VerifyEmailOtp;
    }
  }

  lemma CompleteDecides(c: Config, s: State, e: Event, a: Id, now: Time)
    requires Stands(s, a) && Inv(c, s, now) && e.request.DeviceComplete?
    ensures Decided(c, s, e, a)
  {
    hide Inv, Step, Fallen, Untouched;
    var b := e.request.approval;
    if b == a || b !in s.approvals {
      OwnCompletion(c, s, e, a);
    } else {
      OneSession(c, s, now, a);
      OneDevice(c, s, now, a);
      if Step(c, s, e).0.log == s.log {
        OtherAttempt(c, s, e, a);
      } else {
        OtherCompletion(c, s, e, a);
      }
    }
  }

  lemma OwnCompletion(c: Config, s: State, e: Event, a: Id)
    requires Stands(s, a) && e.request.DeviceComplete? && (e.request.approval == a || e.request.approval !in s.approvals)
    ensures Decided(c, s, e, a)
  {
    hide ReplaceDevices;
  }

  /** Another approval's completion that promotes nothing touches its own session at most. */
  lemma OtherAttempt(c: Config, s: State, e: Event, a: Id)
    requires Stands(s, a) && e.request.DeviceComplete?
    requires e.request.approval in s.approvals && e.request.approval != a
    requires forall b :: b in s.approvals && s.approvals[b].session == s.approvals[a].session ==> b == a
    requires forall b :: b in s.approvals && TrustedFor(s.approvals[b], s.approvals[a].user) ==> b == a
    requires Step(c, s, e).0.log == s.log
    ensures Decided(c, s, e, a)
  {
    hide Step;
    AttemptShape(c, s, e);
    var b := e.request.approval;
    assert s.approvals[b].session != s.approvals[a].session;
    assert !TrustedFor(s.approvals[b], s.approvals[a].user);
  }

  /** What an attempt that writes nothing to the log may have done to the tables. */
  lemma AttemptShape(c: Config, s: State, e: Event)
    requires e.request.DeviceComplete? && Step(c, s, e).0.log == s.log && e.request.approval in s.approvals
    ensures var t, b := Step(c, s, e).0, e.request.approval;
            var session := s.approvals[b].session;
            && (Step(c, s, e).1.Issued? ==> s.approvals[b].status == Trusted) && t.users == s.users
            && (t.approvals == s.approvals || (b in t.approvals && t.approvals == s.approvals[b := t.approvals[b]]))
            && (t.sessions == s.sessions || (session in t.sessions && t.sessions == s.sessions[session := t.sessions[session]]))
  {
    hide RevokeTrusted, CancelReplaced, RevokeReplacedSessions, TrustLapsed, ApprovalLapsed;
  }

  /** Another approval's promotion ends the approval if it is for the same user. */
  lemma OtherCompletion(c: Config, s: State, e: Event, a: Id)
    requires Stands(s, a) && e.request.DeviceComplete?
    requires e.request.approval in s.approvals && e.request.approval != a
    requires forall b :: b in s.approvals && s.approvals[b].session == s.approvals[a].session ==> b == a
    requires Step(c, s, e).0.log != s.log
    ensures Step(c, s, e).1.Issued?
    ensures if s.approvals[e.request.approval].user == s.approvals[a].user then Fallen(Step(c, s, e).0, a)
            else Untouched(s, Step(c, s, e).0, a)
  {
    hide Step, ReplaceDevices;
    var b, session := e.request.approval, s.approvals[a].session;
    PromotionShape(c, s, e);
    OthersReplaced(s, s.approvals[b].user, b, e.ctx.now, a);
    var t, mid := Step(c, s, e).0, ReplaceDevices(s, s.approvals[b].user, b, e.ctx.now);
    assert s.approvals[b].session != session;
    assert t.approvals[a] == mid.approvals[a] && t.sessions[session] == mid.sessions[session];
  }

  /** What a completion that writes to the log has done to the tables. */
  lemma PromotionShape(c: Config, s: State, e: Event)
    requires e.request.DeviceComplete? && Step(c, s, e).0.log != s.log && e.request.approval in s.approvals
    ensures var t, b := Step(c, s, e).0, e.request.approval;
            var mid, session := ReplaceDevices(s, s.approvals[b].user, b, e.ctx.now), s.approvals[b].session;
            && Step(c, s, e).1.Issued? && t.users == s.users
            && b in t.approvals && t.approvals == mid.approvals[b := t.approvals[b]]
            && session in t.sessions && t.sessions == mid.sessions[session := t.sessions[session]]
  {
    hide RevokeTrusted, CancelReplaced, RevokeReplacedSessions, TrustLapsed;
  }

  lemma OneDevice(c: Config, s: State, now: Time, a: Id)
    requires Inv(c, s, now) && Stands(s, a)
    ensures forall b :: b in s.approvals && TrustedFor(s.approvals[b], s.approvals[a].user) ==> b == a
  {
  }

  /** Replacing the devices of a user takes in a device of that user and spares any other. */
  lemma OthersReplaced(s: State, user: Id, spare: Id, now: Time, a: Id)
    requires Stands(s, a) && spare != a
    requires forall b :: b in s.approvals && s.approvals[b].session == s.approvals[a].session ==> b == a
    ensures var mid := ReplaceDevices(s, user, spare, now);
            var session := s.approvals[a].session;
            && a in mid.approvals && session in mid.sessions && mid.approvals[a].session == session
            && (if user == s.approvals[a].user then mid.approvals[a].status == ApprovalRevoked
                else mid.approvals[a] == s.approvals[a] && mid.sessions[session] == s.sessions[session])
  {
  }

  /** Any request at all, while the trust lasts: the completed approval falls if the request
      is one that ends it, and is untouched if it is not. */
  lemma StepDecides(c: Config, w: World, e: Event, a: Id)
    requires Inv(c, w.db, w.clock) && Possible(w, e) && Stands(w.db, a) && InTrust(w.db, a, e.ctx.now)
    ensures Decided(c, w.db, e, a)
  {
    hide SignIn, Register, VerifyEmailOtp, CreateQr, ReadQr, CancelQr, ScanQr, DecideQr, CompleteQr;
    hide RequestActivation, ClaimActivation, RevokeSession, ChangePassword, RecoverPassword, IssueRecovery, ResetMfa;
    hide BreakGlass, Inv, Fallen, Untouched, InTrust;
    hide Refresh, SignOut, VerifyMfa, ReviewDevice, DecideDevice, ReadDevice, RevokeDevice, CompleteDevice;
    var Event(x, m, request) := e;
    var s := w.db;
    match request
    case SignInWith(user, accepted) => SignInUntouched(c, s, x, user, accepted, m.id, m.refresh, a);
    case RegisterAs(user) => SignInUntouched(c, s, x, user, true, m.id, m.refresh, a);
    case VerifyEmailCode(_, _, _, _) => EmailDecides(c, w, e, a);
    case StartQr(claims) => QrsUntouched(c, s, x, claims, m.id, m.first, m.second, a);
    case QrStatusOf(qr, proof) => QrsUntouched(c, s, x, None, qr, proof, proof, a);
    case QrCancel(qr, proof) => QrsUntouched(c, s, x, None, qr, proof, proof, a);
    case QrScan(claims, device, qr, proof) => ScanUntouched(s, x, claims, device, qr, proof, a);
    case QrDecide(claims, device, qr, approve) => DecideQrUntouched(s, x, claims, device, qr, approve, a);
    case QrComplete(qr, proof) => CompleteQrUntouched(s, x, qr, proof, a);
    case AskActivation(claims) => ActivationUntouched(c, s, x, claims, m.id, m.first, a);
    case Claim(activation, proof) => ActivationUntouched(c, s, x, None, activation, proof, a);
    case EndSession(_, _) => EndSessionDecides(c, s, e, a);
    case NewPassword(_, _) => PasswordDecides(c, s, e, a, w.clock);
    case Recover(_, _) => RecoveryDecides(c, s, e, a, w.clock);
    case RecoveryLink(_, _, _) => RecoveryDecides(c, s, e, a, w.clock);
    case FactorReset(_, _, _) => RemovalDecides(c, s, e, a, w.clock);
    case FounderRecovery(_, _) => RemovalDecides(c, s, e, a, w.clock);
    case RefreshWith(proof) => RefreshUntouched(s, x, proof, m.refresh, a);
    case SignOutOf(_) => SignOutDecides(c, s, e, a);
    case Totp(claims, matched, device, mail) =>
      VerifyMfaUntouched(c, s, x, claims, matched, device, mail, m.approval, m.first, m.second, a);
    case DeviceReview(approval, proof) => DevicesUntouched(s, x, approval, proof, true, a);
    case DeviceDecide(approval, proof, approve) => DevicesUntouched(s, x, approval, proof, approve, a);
    case DeviceStatusOf(approval, proof) => DevicesUntouched(s, x, approval, proof, true, a);
    case DeviceRevoke(_, _, _) => RevokeDeviceDecides(c, s, e, a, w.clock);
    case DeviceComplete(_, _) => CompleteDecides(c, s, e, a, w.clock);
  }

  // ---------------------------------------------------------------- over runs

  /** A fallen approval never stands again. */
  lemma FallenStays(s: State, t: State, a: Id)
    requires Fallen(s, a) && Forward(s, t) && SessionsEvolve(s.sessions, t.sessions)
    ensures Fallen(t, a) && t.approvals[a].session == s.approvals[a].session
  {
    assert ApprovalForward(s.approvals[a], t.approvals[a]);
    assert SessionEvolves(s.sessions[s.approvals[a].session], t.sessions[s.approvals[a].session]);
  }

  lemma UntouchedStands(s: State, t: State, a: Id)
    requires Stands(s, a) && Untouched(s, t, a) && SessionsEvolve(s.sessions, t.sessions)
    ensures Stands(t, a) && t.approvals[a] == s.approvals[a]
  {
    assert SessionEvolves(s.sessions[s.approvals[a].session], t.sessions[s.approvals[a].session]);
  }

  /** No granted request from `i` on, and before `m`, ended the approval. */
  ghost predicate NoneEnds(c: Config, worlds: seq<World>, events: seq<Event>, i: nat, m: nat, a: Id)
    requires m <= |events| <= |worlds|
  {
    forall k :: i <= k < m ==> !Ends(c, worlds[k].db, events[k], a)
  }

  /** While the trust lasts, a completed approval stands exactly as long as no request ends it. */
  lemma {:induction false} StandsUnlessEnded(c: Config, worlds: seq<World>, events: seq<Event>, i: nat, m: nat, a: Id)
    requires IsRun(c, worlds, events) && i <= m <= |events| && |worlds| == |events| + 1
    requires Stands(worlds[i].db, a) && InTrust(worlds[i].db, a, worlds[m].clock)
    ensures a in worlds[m].db.approvals
    ensures if NoneEnds(c, worlds, events, i, m, a)
            then Stands(worlds[m].db, a) && worlds[m].db.approvals[a] == worlds[i].db.approvals[a]
            else Fallen(worlds[m].db, a) && worlds[m].db.approvals[a].session == worlds[i].db.approvals[a].session
    decreases m
  {
    hide Step, IsRun, Stands, Fallen, Ends, Untouched, Inv, Forward, SessionsEvolve;
    if i == m {
      StandsIsThere(worlds[i].db, a);
    } else {
      RunStep(c, worlds, events, m - 1);
      StandsUnlessEnded(c, worlds, events, i, m - 1, a);
      RunForward(c, worlds, events, m - 1, m);
      RunEvolves(c, worlds, events, m - 1, m);
      if NoneEnds(c, worlds, events, i, m - 1, a) {
        RunKeeps(c, worlds, events, m - 1);
        StepDecides(c, worlds[m - 1], events[m - 1], a);
        if Ends(c, worlds[m - 1].db, events[m - 1], a) {
          SessionKept(worlds[m - 1].db, worlds[m].db, a);
        } else {
          UntouchedStands(worlds[m - 1].db, worlds[m].db, a);
        }
      } else {
        FallenStays(worlds[m - 1].db, worlds[m].db, a);
      }
    }
  }

  lemma StandsIsThere(s: State, a: Id)
    requires Stands(s, a)
    ensures a in s.approvals
  {
  }

  lemma SessionKept(s: State, t: State, a: Id)
    requires a in s.approvals && Forward(s, t)
    ensures a in t.approvals && t.approvals[a].session == s.approvals[a].session
  {
    assert ApprovalForward(s.approvals[a], t.approvals[a]);
  }

  /** A completion answered with a token leaves its approval standing. */
  lemma CompletionStands(c: Config, s: State, e: Event)
    requires e.request.DeviceComplete? && Step(c, s, e).1.Issued?
    ensures var a := e.request.approval;
            && Stands(Step(c, s, e).0, a) && HoldsDeviceProof(s, a, e.request.proof)
            && HoldsDeviceProof(Step(c, s, e).0, a, e.request.proof)
            && Step(c, s, e).0.approvals[a].session == s.approvals[a].session == Step(c, s, e).1.session
            && Step(c, s, e).0.sessions[Step(c, s, e).1.session].refreshHash == Sha256(e.mint.refresh)
            && Step(c, s, e).1.refresh == e.mint.refresh
  {
    hide CancelReplaced, RevokeTrusted, RevokeReplacedSessions;
  }

  /** Presented again in time by an eligible user: answered with the session's new token if
      the approval stands, refused if it has fallen. */
  lemma RetryAnswers(c: Config, s: State, e: Event)
    requires e.request.DeviceComplete? && HoldsDeviceProof(s, e.request.approval, e.request.proof)
    requires e.ctx.active && e.ctx.roles && s.approvals[e.request.approval].session in s.sessions
    requires e.ctx.now < s.sessions[s.approvals[e.request.approval].session].expiresAt
    ensures Stands(s, e.request.approval) && InTrust(s, e.request.approval, e.ctx.now) ==>
              Step(c, s, e).1 == Issued(s.approvals[e.request.approval].session, e.mint.refresh)
    ensures Fallen(s, e.request.approval) ==> Step(c, s, e).1 == Refused(409)
  {
    hide ReplaceDevices;
  }

  /** A retry is in time: within the term of the session and of the trust, by a user who
      may still use the service. */
  predicate InTime(w: World, a: Id, x: Ctx) {
    && x.active && x.roles && InTrust(w.db, a, x.now)
    && w.db.approvals[a].session in w.db.sessions && x.now < w.db.sessions[w.db.approvals[a].session].expiresAt
  }

  /** Retrying completion, in any run and with any requests in between, other users' and
      other attempts at the same completion included: after a completion was answered with
      a token (which may have been lost), the same approval and proof presented in time are
      answered with a token again if and only if no request granted in between ended the
      approval or its session. The reply then carries the current token of the same
      session, ACTIVE at aal2, and the same approval is TRUSTED. */
  lemma CompletionIsRetrySafe(c: Config, worlds: seq<World>, events: seq<Event>, i: nat, j: nat, a: Id, proof: Token)
    requires IsRun(c, worlds, events) && i < j < |events| && |worlds| == |events| + 1
    requires events[i].request == DeviceComplete(a, proof) && Step(c, worlds[i].db, events[i]).1.Issued?
    requires events[j].request == DeviceComplete(a, proof) && InTime(worlds[i + 1], a, events[j].ctx)
    ensures var first, reply := Step(c, worlds[i].db, events[i]).1, Step(c, worlds[j].db, events[j]).1;
            && (reply == Issued(first.session, events[j].mint.refresh) <==> NoneEnds(c, worlds, events, i + 1, j, a))
            && (reply.Issued? <==> NoneEnds(c, worlds, events, i + 1, j, a))
    ensures var first, later := Step(c, worlds[i].db, events[i]).1, worlds[j + 1].db;
            NoneEnds(c, worlds, events, i + 1, j, a) ==>
              && Stands(later, a) && later.approvals[a].session == first.session
              && later.sessions[first.session].refreshHash == Sha256(events[j].mint.refresh)
  {
    hide Step, IsRun, Stands, Fallen, Ends, NoneEnds, Forward;
    RunStep(c, worlds, events, i);
    RunStep(c, worlds, events, j);
    CompletionStands(c, worlds[i].db, events[i]);
    ClockRises(c, worlds, events, i + 1, j);
    StandsUnlessEnded(c, worlds, events, i + 1, j, a);
    RunForward(c, worlds, events, i + 1, j);
    ProofStays(worlds[i + 1].db, worlds[j].db, a, proof);
    TermStays(c, worlds, events, i + 1, j, worlds[i + 1].db.approvals[a].session);
    RetryAnswers(c, worlds[j].db, events[j]);
    if NoneEnds(c, worlds, events, i + 1, j, a) {
      CompletionStands(c, worlds[j].db, events[j]);
    }
  }

  lemma ProofStays(s: State, t: State, a: Id, proof: Token)
    requires HoldsDeviceProof(s, a, proof) && Forward(s, t)
    ensures HoldsDeviceProof(t, a, proof) && t.approvals[a].session == s.approvals[a].session
  {
    assert ApprovalForward(s.approvals[a], t.approvals[a]);
  }

  lemma {:induction false} ClockRises(c: Config, worlds: seq<World>, events: seq<Event>, i: nat, j: nat)
    requires IsRun(c, worlds, events) && i <= j <= |events| && |worlds| == |events| + 1
    ensures worlds[i].clock <= worlds[j].clock
    decreases j
  {
    hide Step, IsRun;
    if i < j {
      ClockRises(c, worlds, events, i, j - 1);
      RunStep(c, worlds, events, j - 1);
    }
  }

  lemma {:induction false} TermStays(c: Config, worlds: seq<World>, events: seq<Event>, i: nat, j: nat, id: Id)
    requires IsRun(c, worlds, events) && i <= j <= |events| && |worlds| == |events| + 1 && id in worlds[i].db.sessions
    ensures id in worlds[j].db.sessions && worlds[j].db.sessions[id].expiresAt == worlds[i].db.sessions[id].expiresAt
    decreases j
  {
    hide Step, IsRun, Rotates;
    if i < j {
      TermStays(c, worlds, events, i, j - 1, id);
      RunStep(c, worlds, events, j - 1);
      StepOnRow(c, worlds[j - 1], events[j - 1], id);
    }
  }
}
