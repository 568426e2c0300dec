/** How activations, accepted counters and refresh tokens move in one step. */
module IdentityFollow {
  import opened IdentityModel
  import opened IdentityInvariants
  import opened IdentitySteps
  import opened IdentityProtocol

  /** A used-up activation is never live again. */
  ghost predicate ActivationsSettle(activations: Activations, later: Activations) {
    forall v :: v in activations ==> v in later && (activations[v].status != Live ==> later[v] == activations[v])
  }

  lemma CancellingSettles(activations: Activations, user: Id, session: Option<Id>, device: Option<Id>)
    ensures ActivationsSettle(activations, CancelLive(activations, user, session, device))
  {
  }

  lemma ReplacingSettles(approvals: Approvals, activations: Activations, user: Id, spare: Option<Id>, bySession: bool)
    ensures ActivationsSettle(activations, CancelReplaced(approvals, activations, user, spare, bySession))
  {
  }

  /** Each session keeps its refresh token or, one session only, takes the one just drawn. */
  ghost predicate TokensFollow(sessions: Sessions, later: Sessions, drawn: Token, to: Option<Id>) {
    && (forall i :: i in sessions ==> i in later)
    && (forall i :: i in later && to != Some(i) ==> i in sessions && later[i].refreshHash == sessions[i].refreshHash)
    && (to.Some? ==> to.value in later && later[to.value].refreshHash == Sha256(drawn))
  }

  ghost predicate Follows(s: State, t: State, drawn: Token) {
    && ActivationsSettle(s.activations, t.activations)
    && (exists to :: TokensFollow(s.sessions, t.sessions, drawn, to))
  }

  lemma Took(s: State, t: State, drawn: Token, to: Option<Id>)
    requires ActivationsSettle(s.activations, t.activations)
    requires TokensFollow(s.sessions, t.sessions, drawn, to)
    ensures Follows(s, t, drawn)
  {
    hide ActivationsSettle, TokensFollow;
  }

  /** At most one session row changed, and it kept its token. */
  lemma OneRow(s: State, t: State, drawn: Token, id: Id)
    requires t.activations == s.activations
    requires t.sessions == s.sessions
             || (id in s.sessions && id in t.sessions && t.sessions == s.sessions[id := t.sessions[id]]
                 && t.sessions[id].refreshHash == s.sessions[id].refreshHash)
    ensures Follows(s, t, drawn)
  {
    assert TokensFollow(s.sessions, t.sessions, drawn, None);
  }

  /** One session row changed or was added, with the token just drawn. */
  lemma NewToken(s: State, t: State, drawn: Token, id: Id)
    requires ActivationsSettle(s.activations, t.activations)
    requires id in t.sessions && t.sessions == s.sessions[id := t.sessions[id]]
    requires t.sessions[id].refreshHash == Sha256(drawn)
    ensures Follows(s, t, drawn)
  {
    hide ActivationsSettle;
    assert TokensFollow(s.sessions, t.sessions, drawn, Some(id));
  }

  /** No token changed. */
  lemma NoToken(s: State, t: State, drawn: Token)
    requires ActivationsSettle(s.activations, t.activations)
    requires t.sessions.Keys == s.sessions.Keys
    requires forall i :: i in s.sessions ==> t.sessions[i].refreshHash == s.sessions[i].refreshHash
    ensures Follows(s, t, drawn)
  {
    hide ActivationsSettle;
    assert TokensFollow(s.sessions, t.sessions, drawn, None);
  }

  lemma AsIs(s: State, drawn: Token)
    ensures Follows(s, s, drawn)
  {
    NoToken(s, s, drawn);
  }

  // -------------------------------------------------------------- handlers

  lemma SignInFollows(c: Config, s: State, x: Ctx, user: Id, accepted: bool, session: Id, refresh: Token)
    ensures Follows(s, SignIn(c, s, x, user, accepted, session, refresh).0, refresh)
    ensures Follows(s, Register(c, s, x, user, session, refresh).0, refresh)
  {
    hide Follows;
    AsIs(s, refresh);
    var row := Session(user, Sha256(refresh), ACTIVE, AAL1, OFFICE, 0, x.now + c.refreshTtl);
    NewToken(s, WithSession(s, session, row), refresh, session);
    NewToken(s, WithSession(WithUser(s, user, User(false, None)), session, row), refresh, session);
  }

  /** A session that is held at once keeps the token it was issued with. */
  lemma VerifyEmailOtpFollows(
    c: Config, s: State, x: Ctx, user: Id, reviewer: bool, device: DeviceClaim, mail: Mail,
    session: Id, refresh: Token, approval: Id, deviceToken: Token, ownerToken: Token)
    ensures Follows(s, VerifyEmailOtp(c, s, x, user, reviewer, device, mail, session, refresh, approval,
                                      deviceToken, ownerToken).0, refresh)
  {
    hide Follows, KnownDevice, RevokeTrusted, CancelReplaced, MarkLapsed, HoldForApproval;
    AsIs(s, refresh);
    if user in s.users {
      ReplacingSettles(s.approvals, s.activations, user, None, false);
      var begun := WithSession(s, session,
        Session(user, Sha256(refresh), ACTIVE, AAL2, AUTHENTICATOR_ACTIVATION, 0, x.now + c.mobileRefreshTtl));
      if !reviewer && !KnownDevice(s, user, device, x.now) {
        var marked := MarkLapsed(begun, user, device, x.now);
        var held := HoldForApproval(c, marked, x.now, session, approval, deviceToken, ownerToken, mail);
        TwiceOver(s.sessions, session, begun.sessions[session], held.sessions[session]);
        NewToken(s, Log(held, EmailVerified(session, user, Held)), refresh, session);
      } else {
        NewToken(s, VerifyEmailOtp(c, s, x, user, reviewer, device, mail, session, refresh, approval,
                                   deviceToken, ownerToken).0, refresh, session);
      }
    }
  }

  lemma TwiceOver(sessions: Sessions, id: Id, row: Session, last: Session)
    ensures sessions[id := row][id := last] == sessions[id := last]
  {
  }

  lemma VerifyMfaFollows(
    c: Config, s: State, x: Ctx, claims: Option<Claims>, matched: Option<nat>, device: DeviceClaim, mail: Mail,
    approval: Id, deviceToken: Token, ownerToken: Token, drawn: Token)
    ensures Follows(s, VerifyMfa(c, s, x, claims, matched, device, mail, approval, deviceToken, ownerToken).0, drawn)
  {
    hide Follows, AdmitBrowser;
    AsIs(s, drawn);
    var t := VerifyMfa(c, s, x, claims, matched, device, mail, approval, deviceToken, ownerToken).0;
    if t != s {
      var sid := claims.value.session;
      var raised := s.sessions[sid].(aal := AAL2, failed := 0);
      TwiceOver(s.sessions, sid, raised, t.sessions[sid]);
      OneRow(s, t, drawn, sid);
    }
  }

  lemma CreateQrFollows(c: Config, s: State, x: Ctx, claims: Option<Claims>, qr: Id, first: Token, second: Token,
                        drawn: Token)
    ensures Follows(s, CreateQr(c, s, x, claims, qr, first, second).0, drawn)
  {
    hide Authenticate, Follows;
    OneRow(s, CreateQr(c, s, x, claims, qr, first, second).0, drawn, "");
  }

  lemma ReadQrFollows(s: State, x: Ctx, qr: Id, proof: Token, drawn: Token)
    ensures Follows(s, ReadQr(s, x, qr, proof).0, drawn)
    ensures Follows(s, CancelQr(s, qr, proof).0, drawn)
  {
    hide SetQr, Follows;
    OneRow(s, ReadQr(s, x, qr, proof).0, drawn, "");
    OneRow(s, CancelQr(s, qr, proof).0, drawn, "");
  }

  lemma ScanQrFollows(s: State, x: Ctx, claims: Option<Claims>, device: DeviceClaim, qr: Id, proof: Token, drawn: Token)
    ensures Follows(s, ScanQr(s, x, claims, device, qr, proof).0, drawn)
  {
    hide Authenticate, TrustLapsed, SetQr, Follows;
    OneRow(s, ScanQr(s, x, claims, device, qr, proof).0, drawn, "");
  }

  lemma DecideQrFollows(s: State, x: Ctx, claims: Option<Claims>, device: DeviceClaim, qr: Id, approve: bool,
                        drawn: Token)
    ensures Follows(s, DecideQr(s, x, claims, device, qr, approve).0, drawn)
  {
    hide Authenticate, TrustLapsed, SetQr, Follows;
    OneRow(s, DecideQr(s, x, claims, device, qr, approve).0, drawn, if qr in s.qrs then s.qrs[qr].session else "");
  }

  lemma CompleteQrFollows(s: State, x: Ctx, qr: Id, proof: Token, drawn: Token)
    ensures Follows(s, CompleteQr(s, x, qr, proof).0, drawn)
  {
    hide SetQr, Follows;
    OneRow(s, CompleteQr(s, x, qr, proof).0, drawn, if qr in s.qrs then s.qrs[qr].session else "");
  }

  lemma RequestActivationFollows(
    c: Config, s: State, x: Ctx, claims: Option<Claims>, activation: Id, token: Token, drawn: Token)
    requires activation !in s.activations
    ensures Follows(s, RequestActivation(c, s, x, claims, activation, token).0, drawn)
  {
    hide Follows, TrustLapsed;
    AsIs(s, drawn);
    var t := RequestActivation(c, s, x, claims, activation, token).0;
    if t != s {
      NoToken(s, t, drawn);
    }
  }

  lemma ClaimFollows(s: State, x: Ctx, activation: Id, token: Token, drawn: Token)
    ensures Follows(s, ClaimActivation(s, x, activation, token).0, drawn)
  {
    hide ActivationStillBound, MayLogIn, Follows;
    AsIs(s, drawn);
    if activation in s.activations && s.activations[activation].status == Live {
      var row := s.activations[activation];
      NoToken(s, WithActivation(s, activation, row.(status := ActivationExpired)), drawn);
      NoToken(s, WithActivation(s, activation, row.(status := Cancelled)), drawn);
      NoToken(s, Log(WithUser(WithActivation(s, activation, row.(status := Claimed)), row.user, User(true, None)),
                     FactorRotated(row.user, activation)), drawn);
    }
  }

  lemma RevokeSessionFollows(s: State, x: Ctx, claims: Option<Claims>, target: Id, drawn: Token)
    ensures Follows(s, RevokeSession(s, x, claims, target).0, drawn)
  {
    hide Authenticate, Follows;
    OneRow(s, RevokeSession(s, x, claims, target).0, drawn, target);
  }

  lemma ChangePasswordFollows(s: State, x: Ctx, claims: Option<Claims>, accepted: bool, drawn: Token)
    ensures Follows(s, ChangePassword(s, x, claims, accepted).0, drawn)
  {
    hide Follows, CancelLive;
    AsIs(s, drawn);
    var t := ChangePassword(s, x, claims, accepted).0;
    if t != s {
      CancellingSettles(s.activations, claims.value.user, None, None);
      NoToken(s, t, drawn);
    }
  }

  lemma SignOutFollows(s: State, x: Ctx, claims: Option<Claims>, drawn: Token)
    ensures Follows(s, SignOut(s, x, claims).0, drawn)
  {
    hide Follows, CancelLive;
    AsIs(s, drawn);
    var t := SignOut(s, x, claims).0;
    if t != s {
      CancellingSettles(s.activations, claims.value.user, Some(claims.value.session), None);
      NoToken(s, t, drawn);
    }
  }

  lemma AccountFollows(s: State, x: Ctx, claims: Option<Claims>, user: Id, flag: bool, drawn: Token)
    ensures Follows(s, RecoverPassword(s, user, flag).0, drawn)
    ensures Follows(s, IssueRecovery(s, x, claims, user, flag).0, drawn)
    ensures Follows(s, ResetMfa(s, x, claims, user, flag).0, drawn)
    ensures Follows(s, BreakGlass(s, user, flag).0, drawn)
  {
    hide Authenticate, CloseAccount, RemoveFactor, Follows;
    AsIs(s, drawn);
    CloseAccountFollows(s, user, drawn);
    RemoveFactorFollows(s, user, drawn);
  }

  lemma CloseAccountFollows(s: State, user: Id, drawn: Token)
    ensures Follows(s, CloseAccount(s, user), drawn)
  {
    hide CancelLive, Follows;
    CancellingSettles(s.activations, user, None, None);
    NoToken(s, CloseAccount(s, user), drawn);
  }

  lemma RemoveFactorFollows(s: State, user: Id, drawn: Token)
    ensures Follows(s, RemoveFactor(s, user), drawn)
  {
    hide CancelLive, Follows;
    CancellingSettles(s.activations, user, None, None);
    NoToken(s, RemoveFactor(s, user), drawn);
  }

  lemma RefreshFollows(s: State, x: Ctx, token: Token, replacement: Token)
    ensures Follows(s, Refresh(s, x, token, replacement).0, replacement)
  {
    hide Follows, RefreshRow;
    AsIs(s, replacement);
    forall id | HoldsRefresh(s, token, id)
      ensures Follows(s, RefreshRow(s, x, id, token, replacement).0, replacement)
    {
      RefreshRowFollows(s, x, id, token, replacement);
    }
  }

  lemma RefreshRowFollows(s: State, x: Ctx, id: Id, token: Token, replacement: Token)
    requires id in s.sessions
    ensures Follows(s, RefreshRow(s, x, id, token, replacement).0, replacement)
  {
    hide Follows;
    AsIs(s, replacement);
    RecoveredFollows(s, id, replacement);
    NewToken(s, Log(WithSession(s, id, s.sessions[id].(refreshHash := Sha256(replacement))), RefreshAccepted(id, token)),
             replacement, id);
  }

  lemma RecoveredFollows(s: State, session: Id, refresh: Token)
    requires session in s.sessions
    ensures Follows(s, WithSession(s, session, s.sessions[session].(refreshHash := Sha256(refresh))), refresh)
  {
    hide Follows;
    NewToken(s, WithSession(s, session, s.sessions[session].(refreshHash := Sha256(refresh))), refresh, session);
  }

  lemma ExpireApprovalFollows(s: State, id: Id, drawn: Token)
    requires id in s.approvals
    ensures Follows(s, ExpireApproval(s, id), drawn)
  {
    hide Follows;
    OneRow(s, ExpireApproval(s, id), drawn, s.approvals[id].session);
  }

  lemma ReadDeviceFollows(s: State, x: Ctx, approval: Id, proof: Token, drawn: Token)
    ensures Follows(s, ReviewDevice(s, x, approval, proof).0, drawn)
    ensures Follows(s, ReadDevice(s, x, approval, proof).0, drawn)
  {
    hide Follows, ExpireApproval;
    AsIs(s, drawn);
    if approval in s.approvals {
      ExpireApprovalFollows(s, approval, drawn);
    }
  }

  lemma DecideDeviceFollows(s: State, x: Ctx, approval: Id, proof: Token, approve: bool, drawn: Token)
    ensures Follows(s, DecideDevice(s, x, approval, proof, approve).0, drawn)
  {
    hide Follows, ExpireApproval;
    AsIs(s, drawn);
    if approval in s.approvals {
      ExpireApprovalFollows(s, approval, drawn);
      var row := s.approvals[approval];
      OneRow(s, CloseHeld(WithApproval(s, approval, row.(status := ApprovalDeclined)), row.session), drawn, row.session);
      OneRow(s, Log(WithApproval(s, approval, row.(status := ApprovalApproved)), MailboxApproved(approval, row.session)), drawn, "");
    }
  }

  lemma RevokeDeviceFollows(s: State, x: Ctx, claims: Option<Claims>, approval: Id, proof: Token, drawn: Token)
    ensures Follows(s, RevokeDevice(s, x, claims, approval, proof).0, drawn)
  {
    hide CancelLive, Follows;
    AsIs(s, drawn);
    var t := RevokeDevice(s, x, claims, approval, proof).0;
    if t != s {
      CancellingSettles(s.activations, s.approvals[approval].user, Some(s.approvals[approval].session), Some(approval));
      NoToken(s, t, drawn);
    }
  }

  lemma CompleteDeviceFollows(c: Config, s: State, x: Ctx, approval: Id, proof: Token, refresh: Token)
    ensures Follows(s, CompleteDevice(c, s, x, approval, proof, refresh).0, refresh)
  {
    hide Follows, ReplaceDevices, ExpireApproval, TrustLapsed;
    AsIs(s, refresh);
    if approval in s.approvals {
      ExpireApprovalFollows(s, approval, refresh);
      var row := s.approvals[approval];
      if row.session in s.sessions {
        OneRow(s, WithSession(s, row.session, Revoked(s.sessions[row.session])), refresh, row.session);
        RecoveredFollows(s, row.session, refresh);
        PromotionFollows(c, s, x.now, approval, refresh);
      }
    }
  }

  lemma PromotionFollows(c: Config, s: State, now: Time, approval: Id, refresh: Token)
    requires approval in s.approvals && s.approvals[approval].session in s.sessions
    ensures var row := s.approvals[approval];
            var mid := ReplaceDevices(s, row.user, approval, now);
            var promoted := s.sessions[row.session].(status := ACTIVE, refreshHash := Sha256(refresh));
            Follows(s, Log(WithApproval(WithSession(mid, row.session, promoted), approval,
                                        row.(status := Trusted, trustedUntil := Some(now + c.deviceTrustTtl))),
                           DeviceCompleted(approval, row.session)), refresh)
  {
    hide CancelReplaced, RevokeTrusted, Follows, ActivationsSettle;
    var row := s.approvals[approval];
    ReplacingSettles(s.approvals, s.activations, row.user, Some(approval), true);
    var mid := ReplaceDevices(s, row.user, approval, now);
    var promoted := s.sessions[row.session].(status := ACTIVE, refreshHash := Sha256(refresh));
    assert TokensFollow(s.sessions, mid.sessions[row.session := promoted], refresh, Some(row.session));
    Took(s, Log(WithApproval(WithSession(mid, row.session, promoted), approval,
                             row.(status := Trusted, trustedUntil := Some(now + c.deviceTrustTtl))),
                DeviceCompleted(approval, row.session)), refresh, Some(row.session));
  }
}
