/** Device approvals and QR requests only move forward: what any request may do to a row
    of either table, and what stays true of the rows over a run. */
module IdentityLifecycle {
  import opened IdentityModel
  import opened IdentityInvariants
  import opened IdentityProtocol
  import opened IdentitySafety

  // -------------------------------------------------------------- one row

  function Rank(s: ApprovalStatus): nat {
    match s
    case ApprovalPending => 0
    case ApprovalApproved => 1
    case Trusted => 2
    case _ => 3
  }

  /** PENDING, APPROVED, TRUSTED, closed: an approval never goes back and never changes
      within a status; only a PENDING one is declined, and a failed mail is known from
      the start or never. */
  predicate ApprovalForward(row: Approval, later: Approval) {
    && later.user == row.user && later.session == row.session && later.expiresAt == row.expiresAt
    && later.deviceHash == row.deviceHash && later.ownerHash == row.ownerHash
    && (later.status == row.status ==> later == row)
    && (later.status != row.status ==>
          && Rank(row.status) < Rank(later.status)
          && (later.status == ApprovalDeclined ==> row.status == ApprovalPending)
          && later.status != DeliveryFailed && later.status != DeliveryUnknown)
  }

  function QrRank(s: QrStatus): nat {
    match s
    case QrPending => 0
    case QrScanned => 1
    case QrApproved => 2
    case QrRevoked => 4
    case _ => 3
  }

  /** PENDING, SCANNED, APPROVED, closed, and REVOKED even after that: a request never goes
      back, and the device that scanned it is never replaced by another. */
  predicate QrForward(row: Qr, later: Qr) {
    && later.user == row.user && later.session == row.session && later.expiresAt == row.expiresAt
    && later.browserHash == row.browserHash && later.scanHash == row.scanHash
    && (row.status != QrPending ==> later.scannedBy == row.scannedBy)
    && (later.status == row.status ==> later == row)
    && (later.status != row.status ==>
          && QrRank(row.status) < QrRank(later.status)
          && (later.status in {QrRejected, QrExpired} ==> row.status in {QrPending, QrScanned}))
  }

  ghost predicate ApprovalsForward(approvals: Approvals, later: Approvals) {
    forall a :: a in approvals ==> a in later && ApprovalForward(approvals[a], later[a])
  }

  ghost predicate QrsForward(qrs: Qrs, later: Qrs) {
    forall q :: q in qrs ==> q in later && QrForward(qrs[q], later[q])
  }

  ghost predicate Forward(s: State, t: State) {
    ApprovalsForward(s.approvals, t.approvals) && QrsForward(s.qrs, t.qrs)
  }

  lemma ForwardTwice(s: State, t: State, u: State)
    requires Forward(s, t) && Forward(t, u)
    ensures Forward(s, u)
  {
    forall a | a in s.approvals ensures a in u.approvals && ApprovalForward(s.approvals[a], u.approvals[a]) {
      assert ApprovalForward(s.approvals[a], t.approvals[a]) && ApprovalForward(t.approvals[a], u.approvals[a]);
    }
    forall q | q in s.qrs ensures q in u.qrs && QrForward(s.qrs[q], u.qrs[q]) {
      assert QrForward(s.qrs[q], t.qrs[q]) && QrForward(t.qrs[q], u.qrs[q]);
    }
  }

  /** At most one row of the two tables was added or moved, and forward. */
  lemma OneForward(s: State, t: State, a: Id, q: Id)
    requires t.approvals == s.approvals
             || (a in t.approvals && t.approvals == s.approvals[a := t.approvals[a]]
                 && (a in s.approvals ==> ApprovalForward(s.approvals[a], t.approvals[a])))
    requires t.qrs == s.qrs
             || (q in t.qrs && t.qrs == s.qrs[q := t.qrs[q]] && (q in s.qrs ==> QrForward(s.qrs[q], t.qrs[q])))
    ensures Forward(s, t)
  {
  }

  lemma Elsewhere(s: State, t: State)
    requires t.approvals == s.approvals && t.qrs == s.qrs
    ensures Forward(s, t)
  {
  }

  // -------------------------------------------------------------- handlers

  lemma MarkLapsedForward(s: State, user: Id, d: DeviceClaim, now: Time)
    ensures Forward(s, MarkLapsed(s, user, d, now))
  {
  }

  lemma HoldForward(
    c: Config, s: State, now: Time, user: Id, d: DeviceClaim, session: Id, approval: Id, deviceToken: Token, ownerToken: Token,
    mail: Mail, f: Fact)
    requires session in s.sessions && approval !in s.approvals
    ensures var marked := MarkLapsed(s, user, d, now);
            && session in marked.sessions
            && Forward(s, Log(HoldForApproval(c, marked, now, session, approval, deviceToken, ownerToken, mail), f))
  {
    MarkLapsedForward(s, user, d, now);
    var marked := MarkLapsed(s, user, d, now);
    var t := Log(HoldForApproval(c, marked, now, session, approval, deviceToken, ownerToken, mail), f);
    assert t.qrs == marked.qrs;
    assert approval !in marked.approvals && t.approvals == marked.approvals[approval := t.approvals[approval]];
    hide MarkLapsed, HoldForApproval, Forward;
    OneForward(marked, t, approval, "");
    ForwardTwice(s, marked, t);
  }

  lemma VerifyMfaForward(
    c: Config, s: State, x: Ctx, claims: Option<Claims>, matched: Option<nat>, device: DeviceClaim, mail: Mail,
    approval: Id, deviceToken: Token, ownerToken: Token)
    requires approval !in s.approvals
    ensures Forward(s, VerifyMfa(c, s, x, claims, matched, device, mail, approval, deviceToken, ownerToken).0)
  {
    hide Forward, KnownDevice, MarkLapsed, HoldForApproval, MayLogIn;
    var t := VerifyMfa(c, s, x, claims, matched, device, mail, approval, deviceToken, ownerToken).0;
    OneForward(s, s, "", "");
    if Authenticate(s, x, claims, false, {OFFICE}).None? && matched.Some? {
      var sid, user := claims.value.session, claims.value.user;
      var promoted := WithUser(WithSession(s, sid, s.sessions[sid].(aal := AAL2, failed := 0)),
                               user, s.users[user].(lastCounter := Some(matched.value)));
      HoldForward(c, promoted, x.now, user, device, sid, approval, deviceToken, ownerToken, mail,
                  TotpAccepted(sid, user, matched.value, Held));
      SameTables(s, promoted, t);
    }
    if t.approvals == s.approvals && t.qrs == s.qrs {
      OneForward(s, t, "", "");
    }
  }

  lemma SameTables(s: State, t: State, u: State)
    requires t.approvals == s.approvals && t.qrs == s.qrs
    ensures Forward(t, u) ==> Forward(s, u)
  {
  }

  lemma VerifyEmailOtpForward(
    c: Config, s: State, x: Ctx, user: Id, reviewer: bool, device: DeviceClaim, mail: Mail,
    session: Id, refresh: Token, approval: Id, deviceToken: Token, ownerToken: Token)
    requires approval !in s.approvals
    ensures Forward(s, VerifyEmailOtp(c, s, x, user, reviewer, device, mail, session, refresh, approval, deviceToken, ownerToken).0)
  {
    hide Forward, KnownDevice, MarkLapsed, HoldForApproval, CancelReplaced, RevokeTrusted;
    var t := VerifyEmailOtp(c, s, x, user, reviewer, device, mail, session, refresh, approval, deviceToken, ownerToken).0;
    var begun := WithSession(s, session,
      Session(user, Sha256(refresh), ACTIVE, AAL2, AUTHENTICATOR_ACTIVATION, 0, x.now + c.mobileRefreshTtl));
    HoldForward(c, begun, x.now, user, device, session, approval, deviceToken, ownerToken, mail, EmailVerified(session, user, Held));
    SameTables(s, begun, t);
    if reviewer && user in s.users {
      RevokingForward(s, user, None, x.now);
      var mid := s.(approvals := RevokeTrusted(s.approvals, user, None, x.now));
      NotAmong(s.approvals, user, None, x.now, approval);
      OneForward(mid, t, approval, "");
      ForwardTwice(s, mid, t);
    } else if t.approvals == s.approvals {
      OneForward(s, t, "", "");
    }
  }

  lemma RevokingForward(s: State, user: Id, spare: Option<Id>, now: Time)
    ensures Forward(s, s.(approvals := RevokeTrusted(s.approvals, user, spare, now)))
  {
  }

  lemma NotAmong(approvals: Approvals, user: Id, spare: Option<Id>, now: Time, a: Id)
    ensures a in RevokeTrusted(approvals, user, spare, now) <==> a in approvals
  {
  }

  lemma SetQrForward(s: State, qr: Id, status: QrStatus, t: State)
    requires qr in s.qrs && QrForward(s.qrs[qr], s.qrs[qr].(status := status))
    requires t.approvals == s.approvals && t.qrs == SetQr(s, qr, status).qrs
    ensures Forward(s, t)
  {
  }

  lemma ReadQrForward(s: State, x: Ctx, qr: Id, proof: Token)
    ensures Forward(s, ReadQr(s, x, qr, proof).0) && Forward(s, CancelQr(s, qr, proof).0)
  {
    hide Forward, SetQr;
    Elsewhere(s, s);
    if qr in s.qrs && s.qrs[qr].status in {QrPending, QrScanned} {
      SetQrForward(s, qr, QrExpired, SetQr(s, qr, QrExpired));
      SetQrForward(s, qr, QrRevoked, SetQr(s, qr, QrRevoked));
    }
  }

  lemma ScannedForward(s: State, qr: Id, device: Id, t: State)
    requires qr in s.qrs && s.qrs[qr].status == QrPending
    requires t.approvals == s.approvals && t.qrs == s.qrs[qr := s.qrs[qr].(status := QrScanned, scannedBy := Some(device))]
    ensures Forward(s, t)
  {
  }

  lemma ScanQrForward(s: State, x: Ctx, claims: Option<Claims>, device: DeviceClaim, qr: Id, proof: Token)
    ensures Forward(s, ScanQr(s, x, claims, device, qr, proof).0)
  {
    hide Forward, Authenticate, TrustLapsed, SetQr;
    var t := ScanQr(s, x, claims, device, qr, proof).0;
    Elsewhere(s, s);
    if t != s {
      SetQrForward(s, qr, QrRevoked, SetQr(s, qr, QrRevoked));
      if s.qrs[qr].status in {QrPending, QrScanned} {
        SetQrForward(s, qr, QrExpired, SetQr(s, qr, QrExpired));
      }
      if s.qrs[qr].status == QrPending && t.log != s.log {
        ScannedForward(s, qr, device.approval, t);
      }
    }
  }

  lemma DecideQrForward(s: State, x: Ctx, claims: Option<Claims>, device: DeviceClaim, qr: Id, approve: bool)
    ensures Forward(s, DecideQr(s, x, claims, device, qr, approve).0)
  {
    hide Forward, Authenticate, TrustLapsed, SetQr;
    var t := DecideQr(s, x, claims, device, qr, approve).0;
    Elsewhere(s, s);
    if t != s {
      if QrLapsed(s.qrs[qr], x.now) {
        SetQrForward(s, qr, QrExpired, t);
      } else if approve {
        SetQrForward(s, qr, QrApproved, t);
      } else {
        SetQrForward(s, qr, QrRejected, t);
      }
    }
  }

  lemma CompleteQrForward(s: State, x: Ctx, qr: Id, proof: Token)
    ensures Forward(s, CompleteQr(s, x, qr, proof).0)
  {
    hide Forward, SetQr;
    var t := CompleteQr(s, x, qr, proof).0;
    Elsewhere(s, s);
    if t != s {
      if QrLapsed(s.qrs[qr], x.now) {
        SetQrForward(s, qr, QrExpired, t);
      } else if t.log != s.log {
        SetQrForward(s, qr, QrConsumed, t);
      } else {
        SetQrForward(s, qr, QrRevoked, t);
      }
    }
  }

  lemma CreateQrForward(c: Config, s: State, x: Ctx, claims: Option<Claims>, qr: Id, first: Token, second: Token)
    ensures qr !in s.qrs ==> Forward(s, CreateQr(c, s, x, claims, qr, first, second).0)
  {
    hide Authenticate;
  }

  lemma SignInForward(c: Config, s: State, x: Ctx, user: Id, accepted: bool, session: Id, refresh: Token)
    ensures Forward(s, SignIn(c, s, x, user, accepted, session, refresh).0)
    ensures Forward(s, Register(c, s, x, user, session, refresh).0)
  {
    hide Forward, MayLogIn;
    Elsewhere(s, SignIn(c, s, x, user, accepted, session, refresh).0);
    Elsewhere(s, Register(c, s, x, user, session, refresh).0);
  }

  lemma ActivationForward(c: Config, s: State, x: Ctx, claims: Option<Claims>, activation: Id, token: Token)
    ensures Forward(s, RequestActivation(c, s, x, claims, activation, token).0)
    ensures Forward(s, ClaimActivation(s, x, activation, token).0)
  {
    hide Forward, Authenticate, CancelLive, ActivationStillBound, MayLogIn, TrustLapsed;
    Elsewhere(s, RequestActivation(c, s, x, claims, activation, token).0);
    Elsewhere(s, ClaimActivation(s, x, activation, token).0);
  }

  lemma AccountForward(s: State, x: Ctx, claims: Option<Claims>, user: Id, flag: bool)
    ensures Forward(s, RecoverPassword(s, user, flag).0) && Forward(s, IssueRecovery(s, x, claims, user, flag).0)
    ensures Forward(s, ResetMfa(s, x, claims, user, flag).0) && Forward(s, BreakGlass(s, user, flag).0)
  {
    hide Forward, Authenticate, CancelLive, RevokeActive;
    Elsewhere(s, s);
    Elsewhere(s, CloseAccount(s, user));
    Elsewhere(s, RemoveFactor(s, user));
    hide CloseAccount, RemoveFactor;
  }

  lemma SessionForward(s: State, x: Ctx, claims: Option<Claims>, target: Id, flag: bool)
    ensures Forward(s, RevokeSession(s, x, claims, target).0) && Forward(s, ChangePassword(s, x, claims, flag).0)
    ensures Forward(s, SignOut(s, x, claims).0)
  {
    hide Forward, MayLogIn, CancelLive, RevokeActive;
    Elsewhere(s, RevokeSession(s, x, claims, target).0);
    Elsewhere(s, ChangePassword(s, x, claims, flag).0);
    Elsewhere(s, SignOut(s, x, claims).0);
  }

  lemma RefreshForward(s: State, x: Ctx, token: Token, replacement: Token)
    ensures Forward(s, Refresh(s, x, token, replacement).0)
  {
    hide Forward, MayLogIn;
    OneForward(s, Refresh(s, x, token, replacement).0, "", "");
  }

  lemma PutApprovalForward(s: State, a: Id, row: Approval, t: State)
    requires a in s.approvals && ApprovalForward(s.approvals[a], row)
    requires t.qrs == s.qrs && t.approvals == s.approvals[a := row]
    ensures Forward(s, t)
  {
  }

  lemma ExpireForward(s: State, a: Id, now: Time)
    requires a in s.approvals && ApprovalLapsed(s.approvals[a], now)
    ensures Forward(s, ExpireApproval(s, a))
  {
    hide Forward;
    PutApprovalForward(s, a, s.approvals[a].(status := ApprovalExpired), ExpireApproval(s, a));
  }

  lemma ReadDeviceForward(s: State, x: Ctx, approval: Id, proof: Token)
    ensures Forward(s, ReviewDevice(s, x, approval, proof).0) && Forward(s, ReadDevice(s, x, approval, proof).0)
  {
    hide Forward, ExpireApproval, ApprovalLapsed;
    Elsewhere(s, s);
    if approval in s.approvals && ApprovalLapsed(s.approvals[approval], x.now) {
      ExpireForward(s, approval, x.now);
    }
  }

  lemma DecideDeviceForward(s: State, x: Ctx, approval: Id, proof: Token, approve: bool)
    ensures Forward(s, DecideDevice(s, x, approval, proof, approve).0)
  {
    hide Forward, ExpireApproval, CloseHeld, ApprovalLapsed;
    var t := DecideDevice(s, x, approval, proof, approve).0;
    Elsewhere(s, s);
    if t != s {
      if ApprovalLapsed(s.approvals[approval], x.now) {
        ExpireForward(s, approval, x.now);
      } else {
        var row := s.approvals[approval];
        PutApprovalForward(s, approval, row.(status := if approve then ApprovalApproved else ApprovalDeclined), t);
      }
    }
  }

  lemma RevokeDeviceForward(s: State, x: Ctx, claims: Option<Claims>, approval: Id, proof: Token)
    ensures Forward(s, RevokeDevice(s, x, claims, approval, proof).0)
  {
    hide Forward, MayLogIn, CancelLive;
    OneForward(s, RevokeDevice(s, x, claims, approval, proof).0, approval, "");
  }

  lemma PromotionForward(s: State, t: State, approval: Id, now: Time)
    requires approval in s.approvals && approval in t.approvals && ApprovalForward(s.approvals[approval], t.approvals[approval])
    requires var user := s.approvals[approval].user;
             t.approvals == RevokeTrusted(s.approvals, user, Some(approval), now)[approval := t.approvals[approval]]
    requires t.qrs == s.qrs
    ensures Forward(s, t)
  {
    var user := s.approvals[approval].user;
    RevokingForward(s, user, Some(approval), now);
    SparedIsSame(s.approvals, user, approval, now);
    var mid := s.(approvals := RevokeTrusted(s.approvals, user, Some(approval), now));
    hide RevokeTrusted, Forward;
    OneForward(mid, t, approval, "");
    ForwardTwice(s, mid, t);
  }

  lemma CompleteDeviceForward(c: Config, s: State, x: Ctx, approval: Id, proof: Token, refresh: Token)
    ensures Forward(s, CompleteDevice(c, s, x, approval, proof, refresh).0)
  {
    hide Forward, TrustLapsed, CancelReplaced, RevokeReplacedSessions, RevokeTrusted, ExpireApproval, ApprovalLapsed;
    var t := CompleteDevice(c, s, x, approval, proof, refresh).0;
    if approval in s.approvals && ApprovalLapsed(s.approvals[approval], x.now) {
      ExpireForward(s, approval, x.now);
      Elsewhere(s, s);
    } else if t.log == s.log {
      Elsewhere(s, t);
    } else {
      PromotionForward(s, t, approval, x.now);
    }
  }

  lemma SparedIsSame(approvals: Approvals, user: Id, a: Id, now: Time)
    requires a in approvals
    ensures var later := RevokeTrusted(approvals, user, Some(a), now); a in later && later[a] == approvals[a]
  {
  }

  lemma StepForward(c: Config, w: World, e: Event)
    requires FreshMint(w, e.mint)
    ensures Forward(w.db, Step(c, w.db, e).0)
  {
    hide Forward, SignIn, Register, VerifyEmailOtp, CreateQr, ReadQr, CancelQr, ScanQr, DecideQr, CompleteQr;
    hide RequestActivation, ClaimActivation, RevokeSession, ChangePassword, RecoverPassword, IssueRecovery, ResetMfa;
    hide BreakGlass;
    hide Refresh, SignOut, VerifyMfa, ReviewDevice, DecideDevice, ReadDevice, RevokeDevice, CompleteDevice;
    var Event(x, m, request) := e;
    var s := w.db;
    match request
    case SignInWith(user, accepted) => SignInForward(c, s, x, user, accepted, m.id, m.refresh);
    case RegisterAs(user) => SignInForward(c, s, x, user, true, m.id, m.refresh);
    case VerifyEmailCode(user, reviewer, device, mail) =>
      VerifyEmailOtpForward(c, s, x, user, reviewer, device, mail, m.id, m.refresh, m.approval, m.first, m.second);
    case StartQr(claims) => CreateQrForward(c, s, x, claims, m.id, m.first, m.second);
    case QrStatusOf(qr, proof) => ReadQrForward(s, x, qr, proof);
    case QrCancel(qr, proof) => ReadQrForward(s, x, qr, proof);
    case QrScan(claims, device, qr, proof) => ScanQrForward(s, x, claims, device, qr, proof);
    case QrDecide(claims, device, qr, approve) => DecideQrForward(s, x, claims, device, qr, approve);
    case QrComplete(qr, proof) => CompleteQrForward(s, x, qr, proof);
    case AskActivation(claims) => ActivationForward(c, s, x, claims, m.id, m.first);
    case Claim(activation, proof) => ActivationForward(c, s, x, None, activation, proof);
    case EndSession(claims, target) => SessionForward(s, x, claims, target, true);
    case NewPassword(claims, accepted) => SessionForward(s, x, claims, "", accepted);
    case Recover(user, accepted) => AccountForward(s, x, None, user, accepted);
    case RecoveryLink(claims, user, permitted) => AccountForward(s, x, claims, user, permitted);
    case FactorReset(claims, user, permitted) => AccountForward(s, x, claims, user, permitted);
    case FounderRecovery(user, keyAccepted) => AccountForward(s, x, None, user, keyAccepted);
    case RefreshWith(proof) => RefreshForward(s, x, proof, m.refresh);
    case SignOutOf(claims) => SessionForward(s, x, claims, "", true);
    case Totp(claims, matched, device, mail) =>
      VerifyMfaForward(c, s, x, claims, matched, device, mail, m.approval, m.first, m.second);
    case DeviceReview(approval, proof) => ReadDeviceForward(s, x, approval, proof);
    case DeviceDecide(approval, proof, approve) => DecideDeviceForward(s, x, approval, proof, approve);
    case DeviceStatusOf(approval, proof) => ReadDeviceForward(s, x, approval, proof);
    case DeviceRevoke(claims, approval, proof) => RevokeDeviceForward(s, x, claims, approval, proof);
    case DeviceComplete(approval, proof) => CompleteDeviceForward(c, s, x, approval, proof, m.refresh);
  }

  /** Between any two worlds of a run no approval and no QR request disappears, and each
      has only moved forward: a closed approval stays as it was closed, a decided QR
      request is never decided again, and neither changes its user, session or secrets. */
  lemma {:induction false} RunForward(c: Config, worlds: seq<World>, events: seq<Event>, i: nat, j: nat)
    requires IsRun(c, worlds, events) && i <= j <= |events|
    ensures |worlds| == |events| + 1 && Forward(worlds[i].db, worlds[j].db)
    decreases j
  {
    hide Step, IsRun, Forward;
    RunStart(c, worlds, events);
    if i < j {
      RunForward(c, worlds, events, i, j - 1);
      RunStep(c, worlds, events, j - 1);
      StepForward(c, worlds[j - 1], events[j - 1]);
      ForwardTwice(worlds[i].db, worlds[j - 1].db, worlds[j].db);
    } else {
      OneForward(worlds[i].db, worlds[j].db, "", "");
    }
  }
}
