/** Each handler keeps the invariant, never revives a revoked session and never lowers aal2. */
module IdentitySteps {
  import opened IdentityModel
  import opened IdentityInvariants

  ghost predicate Kept(c: Config, s: State, t: State, now: Time) {
    Inv(c, t, now) && SessionsEvolve(s.sessions, t.sessions)
  }

  lemma KeptAsIs(c: Config, s: State, now: Time)
    requires Inv(c, s, now)
    ensures Kept(c, s, s, now)
  {
    hide Inv;
  }

  lemma KeptTwice(c: Config, s: State, t: State, u: State, now: Time)
    requires SessionsEvolve(s.sessions, t.sessions) && Kept(c, t, u, now)
    ensures Kept(c, s, u, now)
  {
    hide Inv;
  }

  // ---------------------------------------------------- consequences of Inv

  /** A session still at aal1 has no approval and carries no activation. */
  lemma PasswordOnly(c: Config, s: State, now: Time, id: Id)
    requires Inv(c, s, now) && id in s.sessions && s.sessions[id].aal == AAL1
    ensures NoneLiveOn(s.activations, id)
    ensures forall a :: a in s.approvals ==> s.approvals[a].session != id
  {
    forall a | a in s.approvals
      ensures s.approvals[a].session != id
    {
      assert ApprovalLinked(s.sessions, s.approvals[a]);
    }
  }

  lemma NotActive(c: Config, s: State, now: Time, id: Id)
    requires Inv(c, s, now) && id in s.sessions && s.sessions[id].status != ACTIVE
    ensures NoneLiveOn(s.activations, id)
  {
  }

  /** An approval that is neither trusted nor lapsed carries no activation. */
  lemma NotTrusted(c: Config, s: State, now: Time, a: Id)
    requires Inv(c, s, now) && a in s.approvals && !DeviceGood(s.approvals[a], now)
    ensures NoneLiveOn(s.activations, s.approvals[a].session)
  {
    forall v | v in s.activations && s.activations[v].status == Live
      ensures s.activations[v].session != s.approvals[a].session
    {
      assert ActivationLinked(s.sessions, s.approvals, s.activations[v]);
      assert Bound(s.sessions, s.approvals, s.activations[v], now);
    }
  }

  lemma OfficeOnly(c: Config, s: State, now: Time, id: Id)
    requires Inv(c, s, now) && id in s.sessions && s.sessions[id].purpose == OFFICE
    ensures NoneLiveOn(s.activations, id)
  {
    forall v | v in s.activations
      ensures s.activations[v].session != id
    {
      assert ActivationLinked(s.sessions, s.approvals, s.activations[v]);
    }
  }

  /** Ending one session that no unused activation depends on. */
  lemma RevokeKeeps(c: Config, s: State, now: Time, id: Id)
    requires Inv(c, s, now) && id in s.sessions && NoneLiveOn(s.activations, id)
    ensures Kept(c, s, WithSession(s, id, Revoked(s.sessions[id])), now)
  {
    hide Inv;
    SessionRowLegal(c, s, now, id);
    PutSession(c, s, now, id, Revoked(s.sessions[id]));
  }

  /** Using up or cancelling one activation. */
  lemma WithdrawKeeps(c: Config, s: State, now: Time, id: Id, status: ActivationStatus)
    requires Inv(c, s, now) && id in s.activations && status != Live
    ensures Inv(c, WithActivation(s, id, s.activations[id].(status := status)), now)
  {
    hide Inv;
    WithdrawActivations(c, s, now, s.activations[id := s.activations[id].(status := status)]);
  }

  // ------------------------------------------------------ shared fragments

  lemma ExpireApprovalKeeps(c: Config, s: State, now: Time, id: Id)
    requires Inv(c, s, now) && id in s.approvals && ApprovalLapsed(s.approvals[id], now)
    ensures Kept(c, s, ExpireApproval(s, id), now)
  {
    var row := s.approvals[id];
    NotTrusted(c, s, now, id);
    PutApproval(c, s, now, id, row.(status := ApprovalExpired));
    CloseHeldKeeps(c, WithApproval(s, id, row.(status := ApprovalExpired)), now, row.session);
  }

  lemma CloseHeldKeeps(c: Config, s: State, now: Time, session: Id)
    requires Inv(c, s, now)
    ensures Kept(c, s, CloseHeld(s, session), now)
  {
    if session in s.sessions && s.sessions[session].status == PENDING_DEVICE_APPROVAL {
      NotActive(c, s, now, session);
      PutSession(c, s, now, session, Revoked(s.sessions[session]));
    }
  }

  lemma MarkLapsedKeeps(c: Config, s: State, user: Id, d: DeviceClaim, now: Time)
    requires Inv(c, s, now)
    ensures Inv(c, MarkLapsed(s, user, d, now), now)
    ensures var t := MarkLapsed(s, user, d, now);
            && t.sessions == s.sessions && t.activations == s.activations
            && t.approvals.Keys == s.approvals.Keys && ApprovalsEvolve(s.approvals, t.approvals)
  {
    hide Inv;
    if HasTrust(s, user, d) && TrustLapsed(s.approvals[d.approval], now) {
      PutApproval(c, s, now, d.approval, s.approvals[d.approval].(status := ApprovalExpired));
    }
  }

  lemma HoldForApprovalKeeps(
    c: Config, s: State, now: Time, session: Id, approval: Id, deviceToken: Token, ownerToken: Token, mail: Mail)
    requires Inv(c, s, now) && approval !in s.approvals
    requires session in s.sessions && s.sessions[session].aal == AAL2 && s.sessions[session].status == ACTIVE
    requires NoneLiveOn(s.activations, session)
    requires forall a :: a in s.approvals ==> s.approvals[a].session != session
    ensures Kept(c, s, HoldForApproval(c, s, now, session, approval, deviceToken, ownerToken, mail), now)
  {
    var t := HoldForApproval(c, s, now, session, approval, deviceToken, ownerToken, mail);
    PutNewApproval(c, s, now, approval, t.approvals[approval]);
    PutSession(c, WithApproval(s, approval, t.approvals[approval]), now, session, t.sessions[session]);
  }

  lemma CloseAccountKeeps(c: Config, s: State, now: Time, user: Id, spare: Option<Id>)
    requires Inv(c, s, now)
    ensures var t := s.(sessions := RevokeActive(s.sessions, user, spare), activations := CancelLive(s.activations, user, None, None));
            Kept(c, s, t, now)
  {
    hide Inv, SessionsEvolve;
    var cancelled := s.(activations := CancelLive(s.activations, user, None, None));
    WithdrawActivations(c, s, now, cancelled.activations);
    forall i | i in s.sessions && s.sessions[i].user == user
      ensures NoneLiveOn(cancelled.activations, i)
    {
      NoneLiveForUser(c, cancelled, now, user, i);
    }
    EndSessions(c, cancelled, now, RevokeActive(s.sessions, user, spare));
  }

  lemma NoneLiveForUser(c: Config, s: State, now: Time, user: Id, session: Id)
    requires Inv(c, s, now) && session in s.sessions && s.sessions[session].user == user
    requires forall v :: v in s.activations ==> !LiveFor(s.activations[v], user)
    ensures NoneLiveOn(s.activations, session)
  {
    forall v | v in s.activations && s.activations[v].status == Live
      ensures s.activations[v].session != session
    {
      assert ActivationLinked(s.sessions, s.approvals, s.activations[v]);
    }
  }

  lemma RemoveFactorKeeps(c: Config, s: State, now: Time, user: Id)
    requires Inv(c, s, now)
    ensures Kept(c, s, RemoveFactor(s, user), now)
  {
    CloseAccountKeeps(c, s, now, user, None);
    UsersAndLogAreFree(c, CloseAccount(s, user), RemoveFactor(s, user), now);
  }

  // -------------------------------------------------------------- handlers

  lemma VerifyMfaKeeps(
    c: Config, s: State, x: Ctx, claims: Option<Claims>, matched: Option<nat>, device: DeviceClaim, mail: Mail,
    approval: Id, deviceToken: Token, ownerToken: Token)
    requires Inv(c, s, x.now) && approval !in s.approvals
    requires c.mfaMaxFailed >= 1
    ensures Kept(c, s, VerifyMfa(c, s, x, claims, matched, device, mail, approval, deviceToken, ownerToken).0, x.now)
  {
    hide Inv, SessionsEvolve, AdmitBrowser;
    var t := VerifyMfa(c, s, x, claims, matched, device, mail, approval, deviceToken, ownerToken).0;
    if t == s {
      KeptAsIs(c, s, x.now);
    } else {
      var sid, user := claims.value.session, claims.value.user;
      var row, who := s.sessions[sid], s.users[user];
      PasswordOnly(c, s, x.now, sid);
      if matched.None? {
        PutSession(c, s, x.now, sid, t.sessions[sid]);
      } else {
        var promoted := WithUser(WithSession(s, sid, row.(aal := AAL2, failed := 0)),
                                 user, who.(lastCounter := Some(matched.value)));
        PutSession(c, s, x.now, sid, promoted.sessions[sid]);
        UsersAndLogAreFree(c, WithSession(s, sid, promoted.sessions[sid]), promoted, x.now);
        AdmitBrowserKeeps(c, promoted, x, sid, user, matched.value, device, mail, approval, deviceToken, ownerToken);
        KeptTwice(c, s, promoted, t, x.now);
      }
    }
  }

  lemma AdmitBrowserKeeps(
    c: Config, s: State, x: Ctx, sid: Id, user: Id, counter: nat, device: DeviceClaim, mail: Mail,
    approval: Id, deviceToken: Token, ownerToken: Token)
    requires Inv(c, s, x.now) && approval !in s.approvals
    requires sid in s.sessions && s.sessions[sid].aal == AAL2 && s.sessions[sid].status == ACTIVE
    requires NoneLiveOn(s.activations, sid)
    requires forall a :: a in s.approvals ==> s.approvals[a].session != sid
    ensures Kept(c, s, AdmitBrowser(c, s, x, sid, user, counter, device, mail, approval, deviceToken, ownerToken).0, x.now)
  {
    hide Inv, SessionsEvolve, KnownDevice, MarkLapsed, HoldForApproval;
    var t := AdmitBrowser(c, s, x, sid, user, counter, device, mail, approval, deviceToken, ownerToken).0;
    if !c.deviceApprovalRequired || KnownDevice(s, user, device, x.now) {
      KeptAsIs(c, s, x.now);
      UsersAndLogAreFree(c, s, t, x.now);
    } else {
      HoldKeeps(c, s, x.now, sid, user, device, mail, approval, deviceToken, ownerToken, TotpAccepted(sid, user, counter, Held));
    }
  }

  /** The tail shared by `/mfa/verify` and the email code: no known device, so hold. */
  lemma HoldKeeps(
    c: Config, s: State, now: Time, session: Id, user: Id, device: DeviceClaim, mail: Mail,
    approval: Id, deviceToken: Token, ownerToken: Token, f: Fact)
    requires Inv(c, s, now) && approval !in s.approvals
    requires session in s.sessions && s.sessions[session].aal == AAL2 && s.sessions[session].status == ACTIVE
    requires NoneLiveOn(s.activations, session)
    requires forall a :: a in s.approvals ==> s.approvals[a].session != session
    ensures var marked := MarkLapsed(s, user, device, now);
            && session in marked.sessions
            && Kept(c, s, Log(HoldForApproval(c, marked, now, session, approval, deviceToken, ownerToken, mail), f), now)
  {
    hide Inv, SessionsEvolve, MarkLapsed, HoldForApproval;
    MarkLapsedKeeps(c, s, user, device, now);
    var marked := MarkLapsed(s, user, device, now);
    var held := HoldForApproval(c, marked, now, session, approval, deviceToken, ownerToken, mail);
    HoldForApprovalKeeps(c, marked, now, session, approval, deviceToken, ownerToken, mail);
    UsersAndLogAreFree(c, held, Log(held, f), now);
  }

  lemma SignInKeeps(c: Config, s: State, x: Ctx, user: Id, accepted: bool, session: Id, refresh: Token)
    requires Inv(c, s, x.now) && session !in s.sessions && c.mfaMaxFailed >= 1
    ensures Kept(c, s, SignIn(c, s, x, user, accepted, session, refresh).0, x.now)
  {
    hide Inv;
    PutNewSession(c, s, x.now, session, Session(user, Sha256(refresh), ACTIVE, AAL1, OFFICE, 0, x.now + c.refreshTtl));
  }

  lemma RegisterKeeps(c: Config, s: State, x: Ctx, user: Id, session: Id, refresh: Token)
    requires Inv(c, s, x.now) && session !in s.sessions && c.mfaMaxFailed >= 1
    ensures Kept(c, s, Register(c, s, x, user, session, refresh).0, x.now)
  {
    hide Inv;
    var row := Session(user, Sha256(refresh), ACTIVE, AAL1, OFFICE, 0, x.now + c.refreshTtl);
    PutNewSession(c, s, x.now, session, row);
    if user !in s.users {
      UsersAndLogAreFree(c, WithSession(s, session, row), Register(c, s, x, user, session, refresh).0, x.now);
    }
  }

  lemma ReplacedCarryNothing(c: Config, s: State, now: Time, user: Id, spare: Option<Id>, bySession: bool, a: Id)
    requires Inv(c, s, now) && IsReplaced(s.approvals, user, spare, a)
    ensures NoneLiveOn(CancelReplaced(s.approvals, s.activations, user, spare, bySession), s.approvals[a].session)
  {
    hide OneTrusted, TrustHasTerm, LiveBound, OneLive, SessionsLegal, QrsLinked, OneQr, ApprovalsLinked;
    forall v | v in s.activations && CancelReplaced(s.approvals, s.activations, user, spare, bySession)[v].status == Live
      ensures s.activations[v].session != s.approvals[a].session
    {
      assert ActivationLinked(s.sessions, s.approvals, s.activations[v]);
    }
  }

  lemma CancelReplacedKeeps(c: Config, s: State, now: Time, user: Id, spare: Option<Id>, bySession: bool)
    requires Inv(c, s, now)
    ensures Inv(c, s.(activations := CancelReplaced(s.approvals, s.activations, user, spare, bySession)), now)
    ensures forall a :: IsReplaced(s.approvals, user, spare, a) ==>
              NoneLiveOn(CancelReplaced(s.approvals, s.activations, user, spare, bySession), s.approvals[a].session)
  {
    hide Inv, NoneLiveOn;
    WithdrawActivations(c, s, now, CancelReplaced(s.approvals, s.activations, user, spare, bySession));
    forall a | IsReplaced(s.approvals, user, spare, a)
      ensures NoneLiveOn(CancelReplaced(s.approvals, s.activations, user, spare, bySession), s.approvals[a].session)
    {
      ReplacedCarryNothing(c, s, now, user, spare, bySession, a);
    }
  }

  /** The flushed state before the promotion already satisfies the invariant, and
      in it no other device of the user is trusted. */
  lemma ReplaceDevicesKeeps(c: Config, s: State, now: Time, user: Id, spare: Id)
    requires Inv(c, s, now)
    ensures Kept(c, s, ReplaceDevices(s, user, spare, now), now)
    ensures NoneTrusted(ReplaceDevices(s, user, spare, now).approvals, user, Some(spare))
  {
    hide Inv, NoneLiveOn, SessionsEvolve;
    CancelReplacedKeeps(c, s, now, user, Some(spare), true);
    var cancelled := s.(activations := CancelReplaced(s.approvals, s.activations, user, Some(spare), true));
    var sessions := RevokeReplacedSessions(s.approvals, s.sessions, user, Some(spare));
    EndSessions(c, cancelled, now, sessions);
    Untrust(c, cancelled.(sessions := sessions), now, RevokeTrusted(s.approvals, user, Some(spare), now));
  }

  lemma CompleteDeviceKeeps(c: Config, s: State, x: Ctx, approval: Id, proof: Token, refresh: Token)
    requires Inv(c, s, x.now)
    ensures Kept(c, s, CompleteDevice(c, s, x, approval, proof, refresh).0, x.now)
  {
    hide Inv, SessionsEvolve, ReplaceDevices, ExpireApproval;
    var t := CompleteDevice(c, s, x, approval, proof, refresh).0;
    if !HoldsDeviceProof(s, approval, proof) {
      KeptAsIs(c, s, x.now);
    } else if ApprovalLapsed(s.approvals[approval], x.now) {
      ExpireApprovalKeeps(c, s, x.now, approval);
    } else if t == s {
      KeptAsIs(c, s, x.now);
    } else {
      var row := s.approvals[approval];
      if row.status == Trusted {
        PutSession(c, s, x.now, row.session, t.sessions[row.session]);
      } else {
        NotActive(c, s, x.now, row.session);
        if !x.active || !x.roles {
          PutSession(c, s, x.now, row.session, t.sessions[row.session]);
        } else {
          PromotionKeeps(c, s, x.now, approval, refresh);
        }
      }
    }
  }

  lemma PromotionKeeps(c: Config, s: State, now: Time, approval: Id, refresh: Token)
    requires Inv(c, s, now) && approval in s.approvals && s.approvals[approval].status == ApprovalApproved
    requires var row := s.approvals[approval];
             row.session in s.sessions && s.sessions[row.session].status == PENDING_DEVICE_APPROVAL
             && s.sessions[row.session].aal == AAL2
    ensures var row := s.approvals[approval];
            var mid := ReplaceDevices(s, row.user, approval, now);
            var promoted := s.sessions[row.session].(status := ACTIVE, refreshHash := Sha256(refresh));
            Kept(c, s, Log(WithApproval(WithSession(mid, row.session, promoted), approval,
                                        row.(status := Trusted, trustedUntil := Some(now + c.deviceTrustTtl))),
                           DeviceCompleted(approval, row.session)), now)
  {
    hide Inv, SessionsEvolve;
    var row := s.approvals[approval];
    var mid := ReplaceDevices(s, row.user, approval, now);
    var promoted := s.sessions[row.session].(status := ACTIVE, refreshHash := Sha256(refresh));
    var trusted := row.(status := Trusted, trustedUntil := Some(now + c.deviceTrustTtl));
    ReplaceDevicesKeeps(c, s, now, row.user, approval);
    PutSession(c, mid, now, row.session, promoted);
    var withSession := WithSession(mid, row.session, promoted);
    PutApproval(c, withSession, now, approval, trusted);
    UsersAndLogAreFree(c, WithApproval(withSession, approval, trusted),
                       Log(WithApproval(withSession, approval, trusted), DeviceCompleted(approval, row.session)), now);
    KeptTwice(c, s, mid, Log(WithApproval(withSession, approval, trusted), DeviceCompleted(approval, row.session)), now);
  }

  lemma VerifyEmailOtpKeeps(
    c: Config, s: State, x: Ctx, user: Id, reviewer: bool, device: DeviceClaim, mail: Mail,
    session: Id, refresh: Token, approval: Id, deviceToken: Token, ownerToken: Token)
    requires Inv(c, s, x.now) && session !in s.sessions && approval !in s.approvals
    ensures Kept(c, s, VerifyEmailOtp(c, s, x, user, reviewer, device, mail, session, refresh, approval,
                                      deviceToken, ownerToken).0, x.now)
  {
    hide Inv, SessionsEvolve, KnownDevice, MarkLapsed, HoldForApproval;
    if user !in s.users {
      KeptAsIs(c, s, x.now);
    } else {
      var row := Session(user, Sha256(refresh), ACTIVE, AAL2, AUTHENTICATOR_ACTIVATION, 0, x.now + c.mobileRefreshTtl);
      var begun := WithSession(s, session, row);
      PutNewSession(c, s, x.now, session, row);
      var t := VerifyEmailOtp(c, s, x, user, reviewer, device, mail, session, refresh, approval, deviceToken, ownerToken).0;
      if reviewer {
        var until := x.now + c.mobileRefreshTtl;
        BindReviewerKeeps(c, begun, x.now, user, approval,
                          Approval(user, session, Sha256(deviceToken), Sha256(ownerToken), Trusted, until, Some(until)), t);
        KeptTwice(c, s, begun, t, x.now);
      } else if KnownDevice(s, user, device, x.now) {
        UsersAndLogAreFree(c, begun, t, x.now);
      } else {
        HoldKeeps(c, begun, x.now, session, user, device, mail, approval, deviceToken, ownerToken,
                  EmailVerified(session, user, Held));
        KeptTwice(c, s, begun, t, x.now);
      }
    }
  }

  lemma BindReviewerKeeps(c: Config, s: State, now: Time, user: Id, id: Id, row: Approval, t: State)
    requires Inv(c, s, now)
    requires id !in s.approvals && ApprovalLinked(s.sessions, row) && row.user == user
    requires row.status == Trusted && row.trustedUntil.Some?
    requires forall a :: a in s.approvals ==> s.approvals[a].session != row.session
    requires t.sessions == s.sessions && t.qrs == s.qrs
    requires t.approvals == RevokeTrusted(s.approvals, user, None, now)[id := row]
    requires t.activations == CancelReplaced(s.approvals, s.activations, user, None, false)
    ensures Kept(c, s, t, now)
  {
    hide Inv, NoneLiveOn, CancelReplaced;
    CancelReplacedKeeps(c, s, now, user, None, false);
    var cancelled := s.(activations := CancelReplaced(s.approvals, s.activations, user, None, false));
    var approvals := RevokeTrusted(s.approvals, user, None, now);
    Untrust(c, cancelled, now, approvals);
    var untrusted := cancelled.(approvals := approvals);
    PutNewApproval(c, untrusted, now, id, row);
    UsersAndLogAreFree(c, WithApproval(untrusted, id, row), t, now);
  }

  // the requests about QR sign-in

  lemma SetQrKeeps(c: Config, s: State, now: Time, qr: Id, status: QrStatus)
    requires Inv(c, s, now) && qr in s.qrs
    requires status in {QrRejected, QrExpired, QrRevoked} || (status == QrApproved && s.qrs[qr].status == QrScanned)
    ensures Kept(c, s, SetQr(s, qr, status), now)
  {
    assert QrLinked(s.sessions, s.approvals, s.qrs[qr]);
    PutQr(c, s, now, qr, s.qrs[qr].(status := status));
  }

  lemma CreateQrKeeps(c: Config, s: State, x: Ctx, claims: Option<Claims>, qr: Id, browserProof: Token,
                      scanToken: Token)
    requires Inv(c, s, x.now) && qr !in s.qrs
    ensures Kept(c, s, CreateQr(c, s, x, claims, qr, browserProof, scanToken).0, x.now)
  {
    hide Inv;
    var t := CreateQr(c, s, x, claims, qr, browserProof, scanToken).0;
    if t != s {
      var sid := claims.value.session;
      var cleared := map id | id in s.qrs :: if OpenQr(s, sid, id) then s.qrs[id].(status := QrRevoked) else s.qrs[id];
      WithdrawQrs(c, s, x.now, cleared);
      PutNewQr(c, s.(qrs := cleared), x.now, qr, t.qrs[qr]);
    }
  }

  lemma ReadQrKeeps(c: Config, s: State, x: Ctx, qr: Id, proof: Token)
    requires Inv(c, s, x.now)
    ensures Kept(c, s, ReadQr(s, x, qr, proof).0, x.now)
  {
    hide Inv;
    if HoldsBrowserProof(s, qr, proof) {
      SetQrKeeps(c, s, x.now, qr, QrExpired);
    }
  }

  lemma CancelQrKeeps(c: Config, s: State, now: Time, qr: Id, proof: Token)
    requires Inv(c, s, now)
    ensures Kept(c, s, CancelQr(s, qr, proof).0, now)
  {
    hide Inv;
    if HoldsBrowserProof(s, qr, proof) {
      SetQrKeeps(c, s, now, qr, QrRevoked);
    }
  }

  lemma ScanQrKeeps(c: Config, s: State, x: Ctx, claims: Option<Claims>, device: DeviceClaim, qr: Id, scanToken: Token)
    requires Inv(c, s, x.now)
    ensures Kept(c, s, ScanQr(s, x, claims, device, qr, scanToken).0, x.now)
  {
    hide Inv, Authenticate, SetQr;
    var t := ScanQr(s, x, claims, device, qr, scanToken).0;
    if t == s {
      KeptAsIs(c, s, x.now);
    } else {
      SetQrKeeps(c, s, x.now, qr, QrExpired);
      SetQrKeeps(c, s, x.now, qr, QrRevoked);
      if t != SetQr(s, qr, QrExpired) && t != SetQr(s, qr, QrRevoked) {
        QrRowLinked(c, s, x.now, qr);
        PutQr(c, s, x.now, qr, t.qrs[qr]);
        UsersAndLogAreFree(c, WithQr(s, qr, t.qrs[qr]), t, x.now);
      }
    }
  }

  lemma QrRowLinked(c: Config, s: State, now: Time, qr: Id)
    requires Inv(c, s, now) && qr in s.qrs
    ensures QrLinked(s.sessions, s.approvals, s.qrs[qr])
    ensures forall q :: q in s.qrs && QrSpent(s.qrs[q], s.qrs[qr].session) ==>
              s.sessions[s.qrs[qr].session].aal == AAL2
  {
    forall q | q in s.qrs && QrSpent(s.qrs[q], s.qrs[qr].session)
      ensures s.sessions[s.qrs[qr].session].aal == AAL2
    {
      assert QrLinked(s.sessions, s.approvals, s.qrs[q]);
    }
  }

  lemma DecideQrKeeps(c: Config, s: State, x: Ctx, claims: Option<Claims>, device: DeviceClaim, qr: Id, approve: bool)
    requires Inv(c, s, x.now)
    ensures Kept(c, s, DecideQr(s, x, claims, device, qr, approve).0, x.now)
  {
    hide Inv, SessionsEvolve, Authenticate, SetQr;
    KeptAsIs(c, s, x.now);
    if DecideQr(s, x, claims, device, qr, approve).0 != s {
      SetQrKeeps(c, s, x.now, qr, QrExpired);
      SetQrKeeps(c, s, x.now, qr, QrRejected);
      if s.qrs[qr].status == QrScanned && device.Device? {
        SetQrKeeps(c, s, x.now, qr, QrApproved);
        var approved := SetQr(s, qr, QrApproved);
        UsersAndLogAreFree(c, approved, Log(approved, Approved(qr, s.qrs[qr].session, device.approval)), x.now);
      }
      if AwaitingFactor(s, s.qrs[qr].session) {
        RejectKeeps(c, s, x.now, qr, QrRejected);
      }
    }
  }

  /** A QR request closes and takes its password session with it. */
  lemma RejectKeeps(c: Config, s: State, now: Time, qr: Id, status: QrStatus)
    requires Inv(c, s, now) && qr in s.qrs && AwaitingFactor(s, s.qrs[qr].session)
    requires status == QrRejected || status == QrRevoked
    ensures Kept(c, s, WithSession(SetQr(s, qr, status), s.qrs[qr].session, Revoked(s.sessions[s.qrs[qr].session])), now)
  {
    hide Inv, SessionsEvolve;
    SetQrKeeps(c, s, now, qr, status);
    var mid := SetQr(s, qr, status);
    PasswordOnly(c, mid, now, s.qrs[qr].session);
    RevokeKeeps(c, mid, now, s.qrs[qr].session);
  }

  lemma CompleteQrKeeps(c: Config, s: State, x: Ctx, qr: Id, proof: Token)
    requires Inv(c, s, x.now)
    ensures Kept(c, s, CompleteQr(s, x, qr, proof).0, x.now)
  {
    hide Inv, SessionsEvolve, SetQr;
    KeptAsIs(c, s, x.now);
    if CompleteQr(s, x, qr, proof).0 != s {
      SetQrKeeps(c, s, x.now, qr, QrExpired);
      SetQrKeeps(c, s, x.now, qr, QrRevoked);
      if AwaitingFactor(s, s.qrs[qr].session) {
        RejectKeeps(c, s, x.now, qr, QrRevoked);
        if s.qrs[qr].status == QrApproved {
          ConsumeKeeps(c, s, x.now, qr);
        }
      }
    }
  }

  lemma ConsumeKeeps(c: Config, s: State, now: Time, qr: Id)
    requires Inv(c, s, now) && qr in s.qrs && s.qrs[qr].status == QrApproved && AwaitingFactor(s, s.qrs[qr].session)
    ensures var session := s.qrs[qr].session;
            Kept(c, s, Log(WithSession(SetQr(s, qr, QrConsumed), session, s.sessions[session].(aal := AAL2)),
                           Completed(qr, session)), now)
  {
    hide Inv, SessionsEvolve;
    var row := s.qrs[qr];
    QrRowLinked(c, s, now, qr);
    PasswordOnly(c, s, now, row.session);
    var raised := s.sessions[row.session].(aal := AAL2);
    PutSession(c, s, now, row.session, raised);
    var mid := WithSession(s, row.session, raised);
    PutQr(c, mid, now, qr, row.(status := QrConsumed));
    var consumed := WithQr(mid, qr, row.(status := QrConsumed));
    UsersAndLogAreFree(c, consumed, Log(consumed, Completed(qr, row.session)), now);
  }

  // the requests about activations

  lemma RequestActivationKeeps(c: Config, s: State, x: Ctx, claims: Option<Claims>, activation: Id, claimToken: Token)
    requires Inv(c, s, x.now) && activation !in s.activations
    ensures Kept(c, s, RequestActivation(c, s, x, claims, activation, claimToken).0, x.now)
  {
    hide Inv;
    var t := RequestActivation(c, s, x, claims, activation, claimToken).0;
    if t != s {
      var cancelled := CancelLive(s.activations, claims.value.user, None, None);
      WithdrawActivations(c, s, x.now, cancelled);
      PutNewActivation(c, s.(activations := cancelled), x.now, activation, t.activations[activation]);
    }
  }

  lemma ClaimActivationKeeps(c: Config, s: State, x: Ctx, activation: Id, claimToken: Token)
    requires Inv(c, s, x.now)
    ensures Kept(c, s, ClaimActivation(s, x, activation, claimToken).0, x.now)
  {
    hide Inv, ActivationStillBound;
    KeptAsIs(c, s, x.now);
    if activation in s.activations {
      WithdrawKeeps(c, s, x.now, activation, ActivationExpired);
      WithdrawKeeps(c, s, x.now, activation, Cancelled);
      WithdrawKeeps(c, s, x.now, activation, Claimed);
      var row := s.activations[activation];
      var claimed := WithActivation(s, activation, row.(status := Claimed));
      UsersAndLogAreFree(c, claimed, Log(WithUser(claimed, row.user, User(true, None)), FactorRotated(row.user, activation)), x.now);
    }
  }

  // the requests about sessions and accounts

  lemma RevokeSessionKeeps(c: Config, s: State, x: Ctx, claims: Option<Claims>, target: Id)
    requires Inv(c, s, x.now)
    ensures Kept(c, s, RevokeSession(s, x, claims, target).0, x.now)
  {
    hide Inv, Authenticate;
    if RevokeSession(s, x, claims, target).0 == s {
      KeptAsIs(c, s, x.now);
    } else {
      OfficeOnly(c, s, x.now, target);
      PutSession(c, s, x.now, target, Revoked(s.sessions[target]));
    }
  }

  lemma SignOutKeeps(c: Config, s: State, x: Ctx, claims: Option<Claims>)
    requires Inv(c, s, x.now)
    ensures Kept(c, s, SignOut(s, x, claims).0, x.now)
  {
    hide Inv;
    var t := SignOut(s, x, claims).0;
    if t == s {
      KeptAsIs(c, s, x.now);
    } else {
      var id, user := claims.value.session, claims.value.user;
      WithdrawActivations(c, s, x.now, t.activations);
      var cancelled := s.(activations := t.activations);
      UserOfLive(c, s, x.now, id);
      RevokeKeeps(c, cancelled, x.now, id);
    }
  }

  /** An unused activation has the user of its session. */
  lemma UserOfLive(c: Config, s: State, now: Time, session: Id)
    requires Inv(c, s, now) && session in s.sessions
    ensures forall v :: v in s.activations && s.activations[v].session == session ==>
              s.activations[v].user == s.sessions[session].user
  {
    forall v | v in s.activations && s.activations[v].session == session
      ensures s.activations[v].user == s.sessions[session].user
    {
      assert ActivationLinked(s.sessions, s.approvals, s.activations[v]);
    }
  }

  lemma RevokeDeviceKeeps(c: Config, s: State, x: Ctx, claims: Option<Claims>, approval: Id, proof: Token)
    requires Inv(c, s, x.now)
    ensures Kept(c, s, RevokeDevice(s, x, claims, approval, proof).0, x.now)
  {
    hide Inv, SessionsEvolve;
    var t := RevokeDevice(s, x, claims, approval, proof).0;
    if t == s {
      KeptAsIs(c, s, x.now);
    } else {
      var row := s.approvals[approval];
      var cancelled := s.(activations := t.activations);
      WithdrawActivations(c, s, x.now, t.activations);
      OwnActivations(c, s, x.now, approval);
      assert NoneLiveOn(t.activations, row.session);
      RevokeKeeps(c, cancelled, x.now, row.session);
      PutApproval(c, WithSession(cancelled, row.session, Revoked(s.sessions[row.session])), x.now, approval, t.approvals[approval]);
    }
  }

  /** Activations of an approval's session are activations of that approval. */
  lemma OwnActivations(c: Config, s: State, now: Time, approval: Id)
    requires Inv(c, s, now) && approval in s.approvals
    ensures forall v :: v in s.activations && s.activations[v].session == s.approvals[approval].session ==>
              s.activations[v].device == approval && s.activations[v].user == s.approvals[approval].user
  {
    forall v | v in s.activations && s.activations[v].session == s.approvals[approval].session
      ensures s.activations[v].device == approval && s.activations[v].user == s.approvals[approval].user
    {
      assert ActivationLinked(s.sessions, s.approvals, s.activations[v]);
    }
  }

  lemma RefreshKeeps(c: Config, s: State, x: Ctx, token: Token, replacement: Token)
    requires Inv(c, s, x.now)
    ensures Kept(c, s, Refresh(s, x, token, replacement).0, x.now)
  {
    hide Inv, SessionsEvolve, RefreshRow;
    if exists id :: HoldsRefresh(s, token, id) {
      forall id | HoldsRefresh(s, token, id)
        ensures Kept(c, s, RefreshRow(s, x, id, token, replacement).0, x.now)
      {
        RefreshRowKeeps(c, s, x, id, token, replacement);
      }
    } else {
      KeptAsIs(c, s, x.now);
    }
  }

  lemma RefreshRowKeeps(c: Config, s: State, x: Ctx, id: Id, token: Token, replacement: Token)
    requires Inv(c, s, x.now) && id in s.sessions
    ensures Kept(c, s, RefreshRow(s, x, id, token, replacement).0, x.now)
  {
    hide Inv, SessionsEvolve;
    KeptAsIs(c, s, x.now);
    RotateKeeps(c, s, x.now, id, replacement);
    var rotated := WithSession(s, id, s.sessions[id].(refreshHash := Sha256(replacement)));
    UsersAndLogAreFree(c, rotated, Log(rotated, RefreshAccepted(id, token)), x.now);
  }

  lemma SessionRowLegal(c: Config, s: State, now: Time, id: Id)
    requires Inv(c, s, now) && id in s.sessions
    ensures SessionLegal(c, s.sessions[id])
  {
  }

  lemma RotateKeeps(c: Config, s: State, now: Time, id: Id, token: Token)
    requires Inv(c, s, now) && id in s.sessions
    ensures Kept(c, s, WithSession(s, id, s.sessions[id].(refreshHash := Sha256(token))), now)
  {
    hide Inv;
    var row := s.sessions[id].(refreshHash := Sha256(token));
    SessionRowLegal(c, s, now, id);
    if row.status != ACTIVE {
      NotActive(c, s, now, id);
    } else if row.aal == AAL1 {
      PasswordOnly(c, s, now, id);
    }
    PutSession(c, s, now, id, row);
  }

  lemma DecideDeviceKeeps(c: Config, s: State, x: Ctx, approval: Id, ownerToken: Token, approve: bool)
    requires Inv(c, s, x.now)
    ensures Kept(c, s, DecideDevice(s, x, approval, ownerToken, approve).0, x.now)
  {
    hide Inv, ExpireApproval, CloseHeld;
    var t := DecideDevice(s, x, approval, ownerToken, approve).0;
    if t == s {
      KeptAsIs(c, s, x.now);
    } else if ApprovalLapsed(s.approvals[approval], x.now) {
      ExpireApprovalKeeps(c, s, x.now, approval);
    } else {
      var row := s.approvals[approval];
      var decided := WithApproval(s, approval, row.(status := if approve then ApprovalApproved else ApprovalDeclined));
      NotTrusted(c, s, x.now, approval);
      PutApproval(c, s, x.now, approval, decided.approvals[approval]);
      if approve {
        UsersAndLogAreFree(c, decided, t, x.now);
      } else {
        CloseHeldKeeps(c, decided, x.now, row.session);
      }
    }
  }

  lemma ReadDeviceKeeps(c: Config, s: State, x: Ctx, approval: Id, proof: Token)
    requires Inv(c, s, x.now)
    ensures Kept(c, s, ReadDevice(s, x, approval, proof).0, x.now)
    ensures Kept(c, s, ReviewDevice(s, x, approval, proof).0, x.now)
  {
    hide Inv, ExpireApproval;
    KeptAsIs(c, s, x.now);
    if approval in s.approvals && ApprovalLapsed(s.approvals[approval], x.now) {
      ExpireApprovalKeeps(c, s, x.now, approval);
    }
  }
}
