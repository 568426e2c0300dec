/** Each handler leaves in the log the evidence that its rows call for. */
module IdentityWitness {
  import opened IdentityModel
  import opened IdentityInvariants
  import opened IdentitySteps
  import opened IdentityEvidence

  // ------------------------------------------------------ shared fragments

  lemma RowShown(s: State, id: Id)
    requires Shown(s) && id in s.sessions
    ensures SessionShown(s.log, id, s.sessions[id])
  {
  }

  lemma RevokeShows(s: State, id: Id)
    requires Shown(s) && id in s.sessions
    ensures Shown(WithSession(s, id, Revoked(s.sessions[id])))
  {
    hide Shown, Evidence;
    ShowSession(s, id, Revoked(s.sessions[id]));
  }

  lemma CloseHeldShows(s: State, session: Id)
    requires Shown(s)
    ensures Shown(CloseHeld(s, session))
  {
    hide Shown;
    if session in s.sessions {
      RevokeShows(s, session);
    }
  }

  /** An approval that is no longer open needs no evidence. */
  lemma SettleShows(s: State, id: Id, row: Approval)
    requires Shown(s) && row.session in s.sessions
    requires row.status != ApprovalPending && row.status != ApprovalApproved
    ensures Shown(WithApproval(s, id, row))
  {
    hide Shown;
    ShowApproval(s, id, row);
  }

  lemma ApprovalHasSession(s: State, id: Id)
    requires Shown(s) && id in s.approvals
    ensures s.approvals[id].session in s.sessions
  {
    assert ApprovalShown(s.log, s.sessions, id, s.approvals[id]);
  }

  lemma ExpireApprovalShows(s: State, id: Id)
    requires Shown(s) && id in s.approvals
    ensures Shown(ExpireApproval(s, id))
  {
    hide Shown, CloseHeld;
    ApprovalHasSession(s, id);
    var row := s.approvals[id].(status := ApprovalExpired);
    SettleShows(s, id, row);
    CloseHeldShows(WithApproval(s, id, row), row.session);
  }

  lemma MarkLapsedShows(s: State, user: Id, d: DeviceClaim, now: Time)
    requires Shown(s)
    ensures Shown(MarkLapsed(s, user, d, now))
    ensures var t := MarkLapsed(s, user, d, now); t.sessions == s.sessions && t.log == s.log
  {
    hide Shown;
    if HasTrust(s, user, d) {
      ApprovalHasSession(s, d.approval);
      SettleShows(s, d.approval, s.approvals[d.approval].(status := ApprovalExpired));
    }
  }

  lemma CloseQrShows(s: State, qr: Id, status: QrStatus)
    requires Shown(s) && qr in s.qrs && status != QrScanned && status != QrApproved
    ensures Shown(SetQr(s, qr, status))
  {
    hide Shown;
    ShowQr(s, qr, s.qrs[qr].(status := status));
  }

  lemma CloseAccountShows(s: State, user: Id, spare: Option<Id>, activations: Activations)
    requires Shown(s)
    ensures Shown(s.(sessions := RevokeActive(s.sessions, user, spare), activations := activations))
  {
    hide Shown;
    ShowSettled(s, s.(sessions := RevokeActive(s.sessions, user, spare), activations := activations));
  }

  lemma RemoveFactorShows(s: State, user: Id)
    requires Shown(s)
    ensures Shown(RemoveFactor(s, user))
  {
    hide Shown;
    CloseAccountShows(s, user, None, CancelLive(s.activations, user, None, None));
    var closed := WithUser(CloseAccount(s, user), user, User(false, None));
    ShowUnrelated(CloseAccount(s, user), closed);
    LogGrows(closed, FactorRemoved(user));
  }

  /** Holding a session: the fact that opened it is in the log, so the approval is shown. */
  lemma HoldShows(
    c: Config, s: State, now: Time, session: Id, approval: Id, deviceToken: Token, ownerToken: Token, mail: Mail, f: Fact)
    requires Shown(s) && session in s.sessions
    requires IsHeldStart(f, session, s.sessions[session].user, s.sessions[session].purpose)
    ensures Shown(Log(HoldForApproval(c, s, now, session, approval, deviceToken, ownerToken, mail), f))
  {
    hide Shown, InOrder, Evidence;
    var logged := Log(s, f);
    LogGrows(s, f);
    var t := HoldForApproval(c, logged, now, session, approval, deviceToken, ownerToken, mail);
    assert f in logged.log;
    ShowApproval(logged, approval, t.approvals[approval]);
    ShowSession(WithApproval(logged, approval, t.approvals[approval]), session, t.sessions[session]);
    assert t == Log(HoldForApproval(c, s, now, session, approval, deviceToken, ownerToken, mail), f);
  }

  // -------------------------------------------------------------- handlers

  lemma SignInShows(c: Config, s: State, x: Ctx, user: Id, accepted: bool, session: Id, refresh: Token)
    requires Shown(s) && session !in s.sessions
    ensures Shown(SignIn(c, s, x, user, accepted, session, refresh).0)
    ensures Shown(Register(c, s, x, user, session, refresh).0)
  {
    hide Shown, Evidence;
    var row := Session(user, Sha256(refresh), ACTIVE, AAL1, OFFICE, 0, x.now + c.refreshTtl);
    ShowSession(s, session, row);
    ShowUnrelated(WithSession(s, session, row), WithSession(WithUser(s, user, User(false, None)), session, row));
  }

  lemma VerifyMfaShows(
    c: Config, s: State, x: Ctx, claims: Option<Claims>, matched: Option<nat>, device: DeviceClaim, mail: Mail,
    approval: Id, deviceToken: Token, ownerToken: Token)
    requires Shown(s)
    ensures Shown(VerifyMfa(c, s, x, claims, matched, device, mail, approval, deviceToken, ownerToken).0)
  {
    hide Shown, TrustLapsed, MarkLapsed, HoldForApproval, Evidence;
    var t := VerifyMfa(c, s, x, claims, matched, device, mail, approval, deviceToken, ownerToken).0;
    if t != s {
      var sid, user := claims.value.session, claims.value.user;
      var row, who := s.sessions[sid], s.users[user];
      if matched.None? {
        ShowSession(s, sid, t.sessions[sid]);
      } else {
        var counted := WithUser(s, user, who.(lastCounter := Some(matched.value)));
        ShowUnrelated(s, counted);
        var raised := row.(aal := AAL2, failed := 0);
        if !c.deviceApprovalRequired {
          DirectShows(counted, sid, raised, TotpAccepted(sid, user, matched.value, ApprovalOff));
        } else if KnownDevice(s, user, device, x.now) {
          DirectShows(counted, sid, raised, TotpAccepted(sid, user, matched.value, Known(device.approval)));
        } else {
          // while it is being held the session is not ACTIVE, so show it as not yet raised
          HoldTotpShows(c, counted, x.now, sid, raised, user, device, mail, approval, deviceToken, ownerToken,
                        TotpAccepted(sid, user, matched.value, Held));
        }
      }
    }
  }

  /** A session raised to aal2 directly: its own fact is the evidence. */
  lemma DirectShows(s: State, id: Id, row: Session, f: Fact)
    requires Shown(s)
    requires id in s.sessions ==> row.purpose == s.sessions[id].purpose
    requires Direct([f], id, row.user, row.purpose)
    ensures Shown(Log(WithSession(s, id, row), f))
  {
    hide Shown, InOrder;
    LogGrows(s, f);
    assert Direct(Log(s, f).log, id, row.user, row.purpose) by {
      assert f in Log(s, f).log;
      assert forall g :: g in [f] ==> g == f;
    }
    ShowSession(Log(s, f), id, row);
    assert WithSession(Log(s, f), id, row) == Log(WithSession(s, id, row), f);
  }

  lemma HoldTotpShows(
    c: Config, s: State, now: Time, session: Id, row: Session, user: Id, device: DeviceClaim, mail: Mail,
    approval: Id, deviceToken: Token, ownerToken: Token, f: Fact)
    requires Shown(s)
    requires session in s.sessions ==> row.purpose == s.sessions[session].purpose
    requires IsHeldStart(f, session, row.user, row.purpose)
    ensures var marked := MarkLapsed(WithSession(s, session, row), user, device, now);
            session in marked.sessions
            && Shown(Log(HoldForApproval(c, marked, now, session, approval, deviceToken, ownerToken, mail), f))
  {
    hide Shown, Evidence;
    var parked := row.(status := PENDING_DEVICE_APPROVAL);
    ShowSession(s, session, parked);
    MarkLapsedShows(WithSession(s, session, parked), user, device, now);
    var marked := MarkLapsed(WithSession(s, session, parked), user, device, now);
    HoldShows(c, marked, now, session, approval, deviceToken, ownerToken, mail, f);
    HoldIgnoresStatus(c, s, now, session, row, user, device, mail, approval, deviceToken, ownerToken);
  }

  /** Holding overwrites the status, so what it was before does not matter. */
  lemma HoldIgnoresStatus(
    c: Config, s: State, now: Time, session: Id, row: Session, user: Id, device: DeviceClaim, mail: Mail,
    approval: Id, deviceToken: Token, ownerToken: Token)
    ensures var parked := row.(status := PENDING_DEVICE_APPROVAL);
            var marked := MarkLapsed(WithSession(s, session, row), user, device, now);
            var marked' := MarkLapsed(WithSession(s, session, parked), user, device, now);
            && session in marked.sessions && session in marked'.sessions
            && HoldForApproval(c, marked, now, session, approval, deviceToken, ownerToken, mail)
            == HoldForApproval(c, marked', now, session, approval, deviceToken, ownerToken, mail)
  {
    hide MarkLapsed, HoldForApproval;
    MarkIgnoresSession(s, session, row, user, device, now);
    MarkIgnoresSession(s, session, row.(status := PENDING_DEVICE_APPROVAL), user, device, now);
    HoldOverwrites(c, MarkLapsed(s, user, device, now), now, session, row, approval, deviceToken, ownerToken, mail);
  }

  lemma MarkIgnoresSession(s: State, session: Id, row: Session, user: Id, device: DeviceClaim, now: Time)
    ensures MarkLapsed(WithSession(s, session, row), user, device, now) == WithSession(MarkLapsed(s, user, device, now), session, row)
  {
  }

  lemma HoldOverwrites(
    c: Config, s: State, now: Time, session: Id, row: Session, approval: Id, deviceToken: Token, ownerToken: Token, mail: Mail)
    ensures HoldForApproval(c, WithSession(s, session, row), now, session, approval, deviceToken, ownerToken, mail)
         == HoldForApproval(c, WithSession(s, session, row.(status := PENDING_DEVICE_APPROVAL)), now, session, approval,
                            deviceToken, ownerToken, mail)
  {
    var a := HoldForApproval(c, WithSession(s, session, row), now, session, approval, deviceToken, ownerToken, mail);
    TwiceOver(s.sessions, session, row, a.sessions[session]);
    TwiceOver(s.sessions, session, row.(status := PENDING_DEVICE_APPROVAL), a.sessions[session]);
  }

  lemma TwiceOver(sessions: Sessions, id: Id, row: Session, last: Session)
    ensures sessions[id := row][id := last] == sessions[id := last]
  {
  }

  lemma VerifyEmailOtpShows(
    c: Config, s: State, x: Ctx, user: Id, reviewer: bool, device: DeviceClaim, mail: Mail,
    session: Id, refresh: Token, approval: Id, deviceToken: Token, ownerToken: Token)
    requires Shown(s) && session !in s.sessions
    ensures Shown(VerifyEmailOtp(c, s, x, user, reviewer, device, mail, session, refresh, approval,
                                 deviceToken, ownerToken).0)
  {
    hide Shown, TrustLapsed, MarkLapsed, HoldForApproval, Evidence, RevokeTrusted, CancelReplaced;
    if user in s.users {
      var row := Session(user, Sha256(refresh), ACTIVE, AAL2, AUTHENTICATOR_ACTIVATION, 0, x.now + c.mobileRefreshTtl);
      if reviewer {
        DirectShows(s, session, row, EmailVerified(session, user, Reviewer(approval)));
        var until := x.now + c.mobileRefreshTtl;
        ReviewerShows(Log(WithSession(s, session, row), EmailVerified(session, user, Reviewer(approval))), user, x.now,
                      approval, Approval(user, session, Sha256(deviceToken), Sha256(ownerToken), Trusted, until, Some(until)));
      } else if KnownDevice(s, user, device, x.now) {
        DirectShows(s, session, row, EmailVerified(session, user, Known(device.approval)));
      } else {
        HoldTotpShows(c, s, x.now, session, row, user, device, mail, approval, deviceToken, ownerToken,
                      EmailVerified(session, user, Held));
      }
    }
  }

  lemma ReviewerShows(s: State, user: Id, now: Time, approval: Id, row: Approval)
    requires Shown(s) && row.session in s.sessions && row.status == Trusted
    ensures Shown(WithApproval(s.(approvals := RevokeTrusted(s.approvals, user, None, now),
                                  activations := CancelReplaced(s.approvals, s.activations, user, None, false)),
                               approval, row))
  {
    hide Shown, CancelReplaced;
    var t := s.(approvals := RevokeTrusted(s.approvals, user, None, now),
                activations := CancelReplaced(s.approvals, s.activations, user, None, false));
    ShowSettled(s, t);
    SettleShows(t, approval, row);
  }

  // the requests about QR sign-in

  lemma CreateQrShows(c: Config, s: State, x: Ctx, claims: Option<Claims>, qr: Id, browserProof: Token,
                      scanToken: Token)
    requires Shown(s)
    ensures Shown(CreateQr(c, s, x, claims, qr, browserProof, scanToken).0)
  {
    hide Shown;
    var t := CreateQr(c, s, x, claims, qr, browserProof, scanToken).0;
    if t != s {
      var sid := claims.value.session;
      var cleared := map id | id in s.qrs :: if OpenQr(s, sid, id) then s.qrs[id].(status := QrRevoked) else s.qrs[id];
      ShowSettled(s, s.(qrs := cleared));
      ShowQr(s.(qrs := cleared), qr, t.qrs[qr]);
    }
  }

  lemma ReadQrShows(s: State, x: Ctx, qr: Id, proof: Token)
    requires Shown(s)
    ensures Shown(ReadQr(s, x, qr, proof).0) && Shown(CancelQr(s, qr, proof).0)
  {
    hide Shown, SetQr;
    if qr in s.qrs {
      CloseQrShows(s, qr, QrExpired);
      CloseQrShows(s, qr, QrRevoked);
    }
  }

  lemma ScanQrShows(s: State, x: Ctx, claims: Option<Claims>, device: DeviceClaim, qr: Id, scanToken: Token)
    requires Shown(s)
    ensures Shown(ScanQr(s, x, claims, device, qr, scanToken).0)
  {
    hide Shown, Authenticate, TrustLapsed, SetQr, InOrder;
    if ScanQr(s, x, claims, device, qr, scanToken).0 != s {
      CloseQrShows(s, qr, QrExpired);
      CloseQrShows(s, qr, QrRevoked);
      if device.Device? {
        ScannedShows(s, qr, device.approval);
      }
    }
  }

  lemma ScannedShows(s: State, qr: Id, device: Id)
    requires Shown(s) && qr in s.qrs
    ensures var row := s.qrs[qr];
            Shown(Log(WithQr(s, qr, row.(status := QrScanned, scannedBy := Some(device))), Scanned(qr, row.session, device)))
  {
    hide Shown, InOrder;
    var row := s.qrs[qr];
    var f := Scanned(qr, row.session, device);
    LogGrows(s, f);
    InOrderOne(s.log + [f], f);
    ShowQr(Log(s, f), qr, row.(status := QrScanned, scannedBy := Some(device)));
  }

  lemma DecideQrShows(s: State, x: Ctx, claims: Option<Claims>, device: DeviceClaim, qr: Id, approve: bool)
    requires Shown(s)
    ensures Shown(DecideQr(s, x, claims, device, qr, approve).0)
  {
    hide Shown, Authenticate, TrustLapsed, SetQr, InOrder;
    if DecideQr(s, x, claims, device, qr, approve).0 != s {
      var row := s.qrs[qr];
      CloseQrShows(s, qr, QrExpired);
      CloseQrShows(s, qr, QrRejected);
      if row.session in s.sessions {
        CloseBothShows(s, qr, QrRejected);
      }
      if device.Device? && row.status == QrScanned && row.scannedBy == Some(device.approval) {
        ApprovedShows(s, qr);
      }
    }
  }

  lemma CloseBothShows(s: State, qr: Id, status: QrStatus)
    requires Shown(s) && qr in s.qrs && s.qrs[qr].session in s.sessions && status != QrScanned && status != QrApproved
    ensures Shown(WithSession(SetQr(s, qr, status), s.qrs[qr].session, Revoked(s.sessions[s.qrs[qr].session])))
  {
    hide Shown;
    CloseQrShows(s, qr, status);
    RevokeShows(SetQr(s, qr, status), s.qrs[qr].session);
  }

  lemma ApprovedShows(s: State, qr: Id)
    requires Shown(s) && qr in s.qrs && s.qrs[qr].status == QrScanned && s.qrs[qr].scannedBy.Some?
    ensures var row := s.qrs[qr];
            Shown(Log(SetQr(s, qr, QrApproved), Approved(qr, row.session, row.scannedBy.value)))
  {
    hide Shown, InOrder;
    var row := s.qrs[qr];
    var scan, f := Scanned(qr, row.session, row.scannedBy.value), Approved(qr, row.session, row.scannedBy.value);
    QrRowShown(s, qr);
    InOrderThen(s.log, f, [scan]);
    assert [scan] + [f] == [scan, f];
    LogGrows(s, f);
    ShowQr(Log(s, f), qr, row.(status := QrApproved));
  }

  lemma QrRowShown(s: State, qr: Id)
    requires Shown(s) && qr in s.qrs
    ensures QrShown(s.log, qr, s.qrs[qr])
  {
  }

  lemma CompleteQrShows(s: State, x: Ctx, qr: Id, proof: Token)
    requires Shown(s)
    ensures Shown(CompleteQr(s, x, qr, proof).0)
  {
    hide Shown, SetQr;
    if CompleteQr(s, x, qr, proof).0 != s {
      CloseQrShows(s, qr, QrExpired);
      CloseQrShows(s, qr, QrRevoked);
      var row := s.qrs[qr];
      if row.session in s.sessions {
        CloseBothShows(s, qr, QrRevoked);
        if row.status == QrApproved && s.sessions[row.session].purpose == OFFICE {
          ConsumedShows(s, qr);
        }
      }
    }
  }

  lemma ConsumedShows(s: State, qr: Id)
    requires Shown(s) && qr in s.qrs && s.qrs[qr].status == QrApproved
    requires s.qrs[qr].session in s.sessions && s.sessions[s.qrs[qr].session].purpose == OFFICE
    ensures var session := s.qrs[qr].session;
            Shown(Log(WithSession(SetQr(s, qr, QrConsumed), session, s.sessions[session].(aal := AAL2)), Completed(qr, session)))
  {
    hide Shown, InOrder;
    var row := s.qrs[qr];
    var session, f := row.session, Completed(qr, row.session);
    QrRowShown(s, qr);
    var steps := [Scanned(qr, session, row.scannedBy.value), Approved(qr, session, row.scannedBy.value)];
    InOrderThen(s.log, f, steps);
    assert steps + [f] == [Scanned(qr, session, row.scannedBy.value), Approved(qr, session, row.scannedBy.value), f];
    LogGrows(s, f);
    ShowQr(Log(s, f), qr, row.(status := QrConsumed));
    assert ByQr(Log(s, f).log, session);
    ShowSession(WithQr(Log(s, f), qr, row.(status := QrConsumed)), session, s.sessions[session].(aal := AAL2));
  }

  // the requests about device approvals

  lemma DecideDeviceShows(s: State, x: Ctx, approval: Id, ownerToken: Token, approve: bool)
    requires Shown(s)
    ensures Shown(DecideDevice(s, x, approval, ownerToken, approve).0)
  {
    hide Shown, ExpireApproval, CloseHeld;
    if approval in s.approvals {
      ExpireApprovalShows(s, approval);
      ApprovalHasSession(s, approval);
      var row := s.approvals[approval];
      var declined := row.(status := ApprovalDeclined);
      SettleShows(s, approval, declined);
      CloseHeldShows(WithApproval(s, approval, declined), row.session);
      if row.status == ApprovalPending {
        MailboxShows(s, approval);
      }
    }
  }

  lemma MailboxShows(s: State, approval: Id)
    requires Shown(s) && approval in s.approvals && s.approvals[approval].status == ApprovalPending
    ensures var row := s.approvals[approval];
            Shown(Log(WithApproval(s, approval, row.(status := ApprovalApproved)), MailboxApproved(approval, row.session)))
  {
    hide Shown, InOrder;
    var row := s.approvals[approval];
    var g := MailboxApproved(approval, row.session);
    ApprovalRowShown(s, approval);
    var purpose := s.sessions[row.session].purpose;
    var f :| IsHeldStart(f, row.session, row.user, purpose) && f in s.log;
    InOrderOne(s.log, f);
    InOrderThen(s.log, g, [f]);
    assert [f] + [g] == [f, g];
    LogGrows(s, g);
    ShowApproval(Log(s, g), approval, row.(status := ApprovalApproved));
  }

  lemma ApprovalRowShown(s: State, approval: Id)
    requires Shown(s) && approval in s.approvals
    ensures ApprovalShown(s.log, s.sessions, approval, s.approvals[approval])
  {
  }

  lemma ReadDeviceShows(s: State, x: Ctx, approval: Id, proof: Token)
    requires Shown(s)
    ensures Shown(ReadDevice(s, x, approval, proof).0) && Shown(ReviewDevice(s, x, approval, proof).0)
  {
    hide Shown, ExpireApproval;
    if approval in s.approvals {
      ExpireApprovalShows(s, approval);
    }
  }

  lemma RevokeDeviceShows(s: State, x: Ctx, claims: Option<Claims>, approval: Id, proof: Token)
    requires Shown(s)
    ensures Shown(RevokeDevice(s, x, claims, approval, proof).0)
  {
    hide Shown;
    var t := RevokeDevice(s, x, claims, approval, proof).0;
    if t != s {
      ShowSettled(s, t);
    }
  }

  lemma CompleteDeviceShows(c: Config, s: State, x: Ctx, approval: Id, proof: Token, refresh: Token)
    requires Shown(s) && ApprovalsLinked(s.sessions, s.approvals)
    ensures Shown(CompleteDevice(c, s, x, approval, proof, refresh).0)
  {
    hide Shown, ExpireApproval, ReplaceDevices, TrustLapsed;
    var t := CompleteDevice(c, s, x, approval, proof, refresh).0;
    if t != s {
      ExpireApprovalShows(s, approval);
      var row := s.approvals[approval];
      if row.session in s.sessions {
        RevokeShows(s, row.session);
        RotateShows(s, row.session, refresh);
        if row.status == ApprovalApproved {
          assert ApprovalLinked(s.sessions, row);
          PromotionShows(c, s, x.now, approval, refresh);
        }
      }
    }
  }

  lemma RotateShows(s: State, id: Id, token: Token)
    requires Shown(s) && id in s.sessions
    ensures Shown(WithSession(s, id, s.sessions[id].(refreshHash := Sha256(token))))
  {
    hide Shown, Evidence;
    RowShown(s, id);
    ShowSession(s, id, s.sessions[id].(refreshHash := Sha256(token)));
  }

  lemma PromotionShows(c: Config, s: State, now: Time, approval: Id, refresh: Token)
    requires Shown(s) && approval in s.approvals && s.approvals[approval].status == ApprovalApproved
    requires s.approvals[approval].session in s.sessions
    requires s.sessions[s.approvals[approval].session].user == s.approvals[approval].user
    ensures var row := s.approvals[approval];
            var mid := ReplaceDevices(s, row.user, approval, now);
            var promoted := s.sessions[row.session].(status := ACTIVE, refreshHash := Sha256(refresh));
            Shown(Log(WithApproval(WithSession(mid, row.session, promoted), approval,
                                   row.(status := Trusted, trustedUntil := Some(now + c.deviceTrustTtl))),
                      DeviceCompleted(approval, row.session)))
  {
    hide Shown, InOrder;
    var row := s.approvals[approval];
    var g := DeviceCompleted(approval, row.session);
    var mid := ReplaceDevices(s, row.user, approval, now);
    var promoted := s.sessions[row.session].(status := ACTIVE, refreshHash := Sha256(refresh));
    ApprovalRowShown(s, approval);
    var f :| IsHeldStart(f, row.session, row.user, promoted.purpose) && InOrder(s.log, [f, MailboxApproved(approval, row.session)]);
    InOrderThen(s.log, g, [f, MailboxApproved(approval, row.session)]);
    assert [f, MailboxApproved(approval, row.session)] + [g] == [f, MailboxApproved(approval, row.session), g];
    ReplaceShows(s, now, row.user, approval);
    LogGrows(mid, g);
    assert ByMailbox(Log(mid, g).log, row.session, row.user, promoted.purpose);
    ShowSession(Log(mid, g), row.session, promoted);
    SettleShows(WithSession(Log(mid, g), row.session, promoted), approval,
                row.(status := Trusted, trustedUntil := Some(now + c.deviceTrustTtl)));
  }

  lemma ReplaceShows(s: State, now: Time, user: Id, spare: Id)
    requires Shown(s)
    ensures Shown(ReplaceDevices(s, user, spare, now))
    ensures ReplaceDevices(s, user, spare, now).log == s.log
    ensures ReplaceDevices(s, user, spare, now).sessions.Keys == s.sessions.Keys
    ensures forall i :: i in s.sessions ==>
              ReplaceDevices(s, user, spare, now).sessions[i].purpose == s.sessions[i].purpose
  {
    hide Shown;
    ShowSettled(s, ReplaceDevices(s, user, spare, now));
  }

  // the requests about sessions, accounts and activations

  lemma SignOutShows(s: State, x: Ctx, claims: Option<Claims>)
    requires Shown(s)
    ensures Shown(SignOut(s, x, claims).0)
  {
    hide Shown;
    var t := SignOut(s, x, claims).0;
    if t != s {
      ShowSettled(s, t);
    }
  }

  lemma RevokeSessionShows(s: State, x: Ctx, claims: Option<Claims>, target: Id)
    requires Shown(s)
    ensures Shown(RevokeSession(s, x, claims, target).0)
  {
    hide Shown;
    if target in s.sessions {
      RevokeShows(s, target);
    }
  }

  lemma AccountShows(s: State, x: Ctx, claims: Option<Claims>, user: Id, flag: bool)
    requires Shown(s)
    ensures Shown(RecoverPassword(s, user, flag).0)
    ensures Shown(IssueRecovery(s, x, claims, user, flag).0)
    ensures Shown(ResetMfa(s, x, claims, user, flag).0)
    ensures Shown(BreakGlass(s, user, flag).0)
  {
    hide Shown, Authenticate, RemoveFactor;
    CloseAccountShows(s, user, None, CancelLive(s.activations, user, None, None));
    RemoveFactorShows(s, user);
  }

  lemma ChangePasswordShows(s: State, x: Ctx, claims: Option<Claims>, flag: bool)
    requires Shown(s)
    ensures Shown(ChangePassword(s, x, claims, flag).0)
  {
    hide Shown;
    if claims.Some? {
      CloseAccountShows(s, claims.value.user, Some(claims.value.session), CancelLive(s.activations, claims.value.user, None, None));
    }
  }

  lemma RefreshShows(s: State, x: Ctx, token: Token, replacement: Token)
    requires Shown(s)
    ensures Shown(Refresh(s, x, token, replacement).0)
  {
    hide Shown, RefreshRow;
    forall id | HoldsRefresh(s, token, id)
      ensures Shown(RefreshRow(s, x, id, token, replacement).0)
    {
      RefreshRowShows(s, x, id, token, replacement);
    }
  }

  lemma RefreshRowShows(s: State, x: Ctx, id: Id, token: Token, replacement: Token)
    requires Shown(s) && id in s.sessions
    ensures Shown(RefreshRow(s, x, id, token, replacement).0)
  {
    hide Shown;
    RotateShows(s, id, replacement);
    LogGrows(WithSession(s, id, s.sessions[id].(refreshHash := Sha256(replacement))), RefreshAccepted(id, token));
  }

  lemma RequestActivationShows(c: Config, s: State, x: Ctx, claims: Option<Claims>, activation: Id, token: Token)
    requires Shown(s)
    ensures Shown(RequestActivation(c, s, x, claims, activation, token).0)
  {
    hide Shown, Authenticate;
    ShowUnrelated(s, RequestActivation(c, s, x, claims, activation, token).0);
  }

  lemma ClaimActivationShows(s: State, x: Ctx, activation: Id, token: Token)
    requires Shown(s)
    ensures Shown(ClaimActivation(s, x, activation, token).0)
  {
    hide Shown, ActivationStillBound;
    if activation in s.activations {
      var row := s.activations[activation];
      ShowUnrelated(s, WithActivation(s, activation, row.(status := ActivationExpired)));
      ShowUnrelated(s, WithActivation(s, activation, row.(status := Cancelled)));
      var claimed := WithUser(WithActivation(s, activation, row.(status := Claimed)), row.user, User(true, None));
      ShowUnrelated(s, claimed);
      LogGrows(claimed, FactorRotated(row.user, activation));
    }
  }
}
