/** Scanning a QR code whose request is closed, and completing a QR sign-in again after it. */
module IdentityRescan {
  import opened IdentityModel
  import opened IdentityInvariants
  import opened IdentityProtocol
  import opened IdentitySafety
  import opened IdentityLifecycle

  /** The request is a scan of this code by a trusted phone of the code's own user. */
  predicate Scans(s: State, e: Event, q: Id) {
    && q in s.qrs && e.request.QrScan? && e.request.qr == q
    && ScannerRefusal(s, e.ctx, e.request.claims, e.request.device).None?
    && s.qrs[q].scanHash == Sha256(e.request.proof) && s.qrs[q].user == e.request.claims.value.user
  }

  predicate Closed(row: Qr) {
    row.status in {QrConsumed, QrRejected, QrExpired}
  }

  // ------------------------------------------------- what moves a closed row

  lemma CreateQrLeaves(c: Config, s: State, x: Ctx, claims: Option<Claims>, qr: Id, first: Token, second: Token, q: Id)
    requires q in s.qrs && Closed(s.qrs[q]) && qr !in s.qrs
    ensures var t := CreateQr(c, s, x, claims, qr, first, second).0; q in t.qrs && t.qrs[q] == s.qrs[q]
  {
    hide Authenticate;
  }

  lemma ReadQrLeaves(s: State, x: Ctx, qr: Id, proof: Token, q: Id)
    requires q in s.qrs && Closed(s.qrs[q])
    ensures var t := ReadQr(s, x, qr, proof).0; q in t.qrs && t.qrs[q] == s.qrs[q]
    ensures var t := CancelQr(s, qr, proof).0; q in t.qrs && t.qrs[q] == s.qrs[q]
  {
  }

  lemma DecideQrLeaves(s: State, x: Ctx, claims: Option<Claims>, device: DeviceClaim, qr: Id, approve: bool, q: Id)
    requires q in s.qrs && Closed(s.qrs[q])
    ensures var t := DecideQr(s, x, claims, device, qr, approve).0; q in t.qrs && t.qrs[q] == s.qrs[q]
  {
    hide ScannerRefusal;
  }

  lemma CompleteQrLeaves(s: State, x: Ctx, qr: Id, proof: Token, q: Id)
    requires q in s.qrs && Closed(s.qrs[q])
    ensures var t := CompleteQr(s, x, qr, proof).0; q in t.qrs && t.qrs[q] == s.qrs[q]
  {
  }

  lemma ScanQrMoves(s: State, e: Event, q: Id)
    requires q in s.qrs && Closed(s.qrs[q]) && e.request.QrScan?
    ensures var t := ScanQr(s, e.ctx, e.request.claims, e.request.device, e.request.qr, e.request.proof).0;
            && q in t.qrs
            && t.qrs[q] == if Scans(s, e, q) && !Waiting(s, q) then s.qrs[q].(status := QrRevoked) else s.qrs[q]
  {
    hide ScannerRefusal;
  }

  /** The browser session of the code can still be given its factor. */
  predicate Waiting(s: State, q: Id) {
    q in s.qrs && AwaitingFactor(s, s.qrs[q].session) && s.sessions[s.qrs[q].session].purpose == OFFICE
  }

  // The account, token and device requests leave the table of codes alone.

  lemma VerifyEmailOtpLeaves(
    c: Config, s: State, x: Ctx, user: Id, reviewer: bool, device: DeviceClaim, mail: Mail,
    session: Id, refresh: Token, approval: Id, deviceToken: Token, ownerToken: Token)
    ensures VerifyEmailOtp(c, s, x, user, reviewer, device, mail, session, refresh, approval, deviceToken, ownerToken).0.qrs == s.qrs
  {
    hide KnownDevice, RevokeTrusted, CancelReplaced;
  }

  lemma VerifyMfaLeaves(
    c: Config, s: State, x: Ctx, claims: Option<Claims>, matched: Option<nat>, device: DeviceClaim, mail: Mail,
    approval: Id, deviceToken: Token, ownerToken: Token)
    ensures VerifyMfa(c, s, x, claims, matched, device, mail, approval, deviceToken, ownerToken).0.qrs == s.qrs
  {
    hide Authenticate, KnownDevice;
  }

  lemma SignInLeaves(c: Config, s: State, x: Ctx, user: Id, accepted: bool, session: Id, refresh: Token)
    ensures SignIn(c, s, x, user, accepted, session, refresh).0.qrs == s.qrs
    ensures Register(c, s, x, user, session, refresh).0.qrs == s.qrs
    ensures Refresh(s, x, refresh, session).0.qrs == s.qrs
  {
    hide MayLogIn;
  }

  lemma ActivationLeaves(c: Config, s: State, x: Ctx, claims: Option<Claims>, activation: Id, token: Token)
    ensures RequestActivation(c, s, x, claims, activation, token).0.qrs == s.qrs
    ensures ClaimActivation(s, x, activation, token).0.qrs == s.qrs
  {
    hide Authenticate, CancelLive, ActivationStillBound, MayLogIn;
  }

  lemma AccountLeaves(s: State, x: Ctx, claims: Option<Claims>, user: Id, flag: bool)
    ensures RecoverPassword(s, user, flag).0.qrs == s.qrs && IssueRecovery(s, x, claims, user, flag).0.qrs == s.qrs
    ensures ResetMfa(s, x, claims, user, flag).0.qrs == s.qrs && BreakGlass(s, user, flag).0.qrs == s.qrs
  {
    hide Authenticate, CancelLive, RevokeActive;
  }

  lemma SessionLeaves(s: State, x: Ctx, claims: Option<Claims>, target: Id, flag: bool)
    ensures RevokeSession(s, x, claims, target).0.qrs == s.qrs && ChangePassword(s, x, claims, flag).0.qrs == s.qrs
    ensures SignOut(s, x, claims).0.qrs == s.qrs
  {
    hide Authenticate, MayLogIn, CancelLive, RevokeActive;
  }

  lemma DeviceLeaves(c: Config, s: State, x: Ctx, claims: Option<Claims>, approval: Id, proof: Token, approve: bool)
    ensures ReviewDevice(s, x, approval, proof).0.qrs == s.qrs && ReadDevice(s, x, approval, proof).0.qrs == s.qrs
    ensures DecideDevice(s, x, approval, proof, approve).0.qrs == s.qrs
    ensures RevokeDevice(s, x, claims, approval, proof).0.qrs == s.qrs
  {
    hide Authenticate, MayLogIn, CancelLive, ApprovalLapsed;
  }

  lemma CompleteDeviceLeaves(c: Config, s: State, x: Ctx, approval: Id, proof: Token, refresh: Token)
    ensures CompleteDevice(c, s, x, approval, proof, refresh).0.qrs == s.qrs
  {
    hide TrustLapsed, CancelReplaced, RevokeReplacedSessions, RevokeTrusted, ApprovalLapsed;
  }

  predicate IsQr(request: Request) {
    || request.StartQr? || request.QrStatusOf? || request.QrCancel? || request.QrScan? || request.QrDecide?
    || request.QrComplete?
  }

  lemma SameCodes(c: Config, s: State, e: Event)
    requires !IsQr(e.request)
    ensures Step(c, s, e).0.qrs == s.qrs
  {
    hide SignIn, Register, VerifyEmailOtp, CreateQr, ReadQr, CancelQr, ScanQr, DecideQr, CompleteQr, BreakGlass;
    hide RequestActivation, ClaimActivation, RevokeSession, ChangePassword, RecoverPassword, IssueRecovery, ResetMfa;
    hide Refresh, SignOut, VerifyMfa, ReviewDevice, DecideDevice, ReadDevice, RevokeDevice, CompleteDevice;
    var Event(x, m, request) := e;
    match request
    case SignInWith(user, accepted) => SignInLeaves(c, s, x, user, accepted, m.id, m.refresh);
    case RegisterAs(user) => SignInLeaves(c, s, x, user, true, m.id, m.refresh);
    case RefreshWith(proof) => SignInLeaves(c, s, x, "", true, m.refresh, proof);
    case VerifyEmailCode(user, reviewer, device, mail) =>
      VerifyEmailOtpLeaves(c, s, x, user, reviewer, device, mail, m.id, m.refresh, m.approval, m.first, m.second);
    case AskActivation(claims) => ActivationLeaves(c, s, x, claims, m.id, m.first);
    case Claim(activation, proof) => ActivationLeaves(c, s, x, None, activation, proof);
    case EndSession(claims, target) => SessionLeaves(s, x, claims, target, true);
    case NewPassword(claims, accepted) => SessionLeaves(s, x, claims, "", accepted);
    case SignOutOf(claims) => SessionLeaves(s, x, claims, "", true);
    case Recover(user, accepted) => AccountLeaves(s, x, None, user, accepted);
    case RecoveryLink(claims, user, permitted) => AccountLeaves(s, x, claims, user, permitted);
    case FactorReset(claims, user, permitted) => AccountLeaves(s, x, claims, user, permitted);
    case FounderRecovery(user, keyAccepted) => AccountLeaves(s, x, None, user, keyAccepted);
    case Totp(claims, matched, device, mail) =>
      VerifyMfaLeaves(c, s, x, claims, matched, device, mail, m.approval, m.first, m.second);
    case DeviceReview(approval, proof) => DeviceLeaves(c, s, x, None, approval, proof, true);
    case DeviceStatusOf(approval, proof) => DeviceLeaves(c, s, x, None, approval, proof, true);
    case DeviceDecide(approval, proof, approve) => DeviceLeaves(c, s, x, None, approval, proof, approve);
    case DeviceRevoke(claims, approval, proof) => DeviceLeaves(c, s, x, claims, approval, proof, true);
    case DeviceComplete(approval, proof) => CompleteDeviceLeaves(c, s, x, approval, proof, m.refresh);
  }

  /** Nothing but a scan touches a closed request. */
  lemma OthersLeave(c: Config, w: World, e: Event, q: Id)
    requires FreshMint(w, e.mint) && q in w.db.qrs && Closed(w.db.qrs[q]) && !e.request.QrScan?
    ensures var t := Step(c, w.db, e).0; q in t.qrs && t.qrs[q] == w.db.qrs[q]
  {
    var Event(x, m, request) := e;
    var s := w.db;
    if !IsQr(request) {
      SameCodes(c, s, e);
      hide Step;
    } else {
      hide CreateQr, ReadQr, CancelQr, ScanQr, DecideQr, CompleteQr, Closed;
      match request
      case StartQr(claims) => CreateQrLeaves(c, s, x, claims, m.id, m.first, m.second, q);
      case QrStatusOf(qr, proof) => ReadQrLeaves(s, x, qr, proof, q);
      case QrCancel(qr, proof) => ReadQrLeaves(s, x, qr, proof, q);
      case QrDecide(claims, device, qr, approve) => DecideQrLeaves(s, x, claims, device, qr, approve, q);
      case QrComplete(qr, proof) => CompleteQrLeaves(s, x, qr, proof, q);
    }
  }

  /** A consumed, rejected or expired request is touched by one thing only, a scan of its
      code once the browser session no longer waits for a factor; that makes it REVOKED. */
  lemma ClosedMovesExactly(c: Config, w: World, e: Event, q: Id)
    requires FreshMint(w, e.mint) && q in w.db.qrs && Closed(w.db.qrs[q])
    ensures var t := Step(c, w.db, e).0;
            && q in t.qrs
            && t.qrs[q] == if Scans(w.db, e, q) && !Waiting(w.db, q)
                           then w.db.qrs[q].(status := QrRevoked) else w.db.qrs[q]
  {
    if e.request.QrScan? {
      hide ScanQr, Waiting, Closed;
      ScanQrMoves(w.db, e, q);
    } else {
      OthersLeave(c, w, e, q);
      hide Step, Waiting, Closed;
    }
  }

  // ------------------------------------------------------ completing again

  lemma FactorUsersStay(
    c: Config, s: State, x: Ctx, claims: Option<Claims>, matched: Option<nat>, device: DeviceClaim, mail: Mail,
    approval: Id, deviceToken: Token, ownerToken: Token, user: Id)
    requires user in s.users
    ensures user in VerifyMfa(c, s, x, claims, matched, device, mail, approval, deviceToken, ownerToken).0.users
  {
    hide Authenticate, AdmitBrowser;
  }

  lemma AccountUsersStay(s: State, x: Ctx, claims: Option<Claims>, id: Id, token: Token, flag: bool, user: Id)
    requires user in s.users
    ensures user in ClaimActivation(s, x, id, token).0.users
    ensures user in ResetMfa(s, x, claims, id, flag).0.users && user in BreakGlass(s, id, flag).0.users
  {
    hide Authenticate, ActivationStillBound, MayLogIn;
  }

  lemma RegisterUsersStay(c: Config, s: State, x: Ctx, id: Id, session: Id, token: Token, user: Id)
    requires user in s.users
    ensures user in Register(c, s, x, id, session, token).0.users
  {
  }

  lemma UsersStay(c: Config, s: State, e: Event, user: Id)
    requires user in s.users
    ensures user in Step(c, s, e).0.users
  {
    hide SignIn, Register, VerifyEmailOtp, CreateQr, ReadQr, CancelQr, ScanQr, DecideQr, CompleteQr, BreakGlass;
    hide RequestActivation, ClaimActivation, RevokeSession, ChangePassword, RecoverPassword, IssueRecovery, ResetMfa;
    hide Refresh, SignOut, VerifyMfa, ReviewDevice, DecideDevice, ReadDevice, RevokeDevice, CompleteDevice;
    var Event(x, m, request) := e;
    match request
    case RegisterAs(joined) => RegisterUsersStay(c, s, x, joined, m.id, m.refresh, user);
    case Claim(activation, proof) => AccountUsersStay(s, x, None, activation, proof, true, user);
    case FactorReset(claims, id, permitted) => AccountUsersStay(s, x, claims, id, "", permitted, user);
    case FounderRecovery(id, keyAccepted) => AccountUsersStay(s, x, None, id, "", keyAccepted, user);
    case Totp(claims, matched, device, mail) =>
      FactorUsersStay(c, s, x, claims, matched, device, mail, m.approval, m.first, m.second, user);
    case _ =>
  }

  /** After the completion of step `i`, the code is CONSUMED until it is scanned again. */
  lemma {:induction false} ConsumedUntilScanned(c: Config, worlds: seq<World>, events: seq<Event>, q: Id, i: nat, j: nat)
    requires IsRun(c, worlds, events) && i <= j <= |events| && |worlds| == |events| + 1
    requires q in worlds[i].db.qrs && worlds[i].db.qrs[q].status == QrConsumed && worlds[i].db.qrs[q].user in worlds[i].db.users
    ensures q in worlds[j].db.qrs && worlds[j].db.qrs[q].user in worlds[j].db.users
    ensures worlds[j].db.qrs[q] ==
            worlds[i].db.qrs[q].(status := if exists k :: i <= k < j && Scans(worlds[k].db, events[k], q)
                                           then QrRevoked else QrConsumed)
    decreases j
  {
    hide Step, IsRun, Inv, Scans;
    if i < j {
      ConsumedUntilScanned(c, worlds, events, q, i, j - 1);
      var w, e := worlds[j - 1], events[j - 1];
      RunStep(c, worlds, events, j - 1);
      UsersStay(c, w.db, e, w.db.qrs[q].user);
      if w.db.qrs[q].status == QrConsumed {
        RunKeeps(c, worlds, events, j - 1);
        SpentIsNotWaiting(c, w, q);
        ClosedMovesExactly(c, w, e, q);
      } else {
        StepForward(c, w, e);
        assert QrForward(w.db.qrs[q], worlds[j].db.qrs[q]);
      }
    }
  }

  lemma SpentIsNotWaiting(c: Config, w: World, q: Id)
    requires Inv(c, w.db, w.clock) && q in w.db.qrs && w.db.qrs[q].status == QrConsumed
    ensures w.db.qrs[q].session in w.db.sessions && w.db.sessions[w.db.qrs[q].session].aal == AAL2 && !Waiting(w.db, q)
  {
    hide ApprovalsLinked, ActivationsLinked, SessionsLegal, LiveBound;
    hide OneApprovalPerSession, OneTrusted, TrustHasTerm, OneLive, OneQr;
    assert QrLinked(w.db.sessions, w.db.approvals, w.db.qrs[q]);
  }

  lemma AcceptedIsConsumed(s: State, x: Ctx, q: Id, proof: Token)
    ensures var (t, reply) := CompleteQr(s, x, q, proof);
            reply == Accepted ==>
              HoldsBrowserProof(s, q, proof) && q in t.qrs && t.qrs[q] == s.qrs[q].(status := QrConsumed)
              && t.qrs[q].user in t.users
  {
  }

  lemma ConsumedAnswers(s: State, x: Ctx, q: Id, proof: Token)
    requires HoldsBrowserProof(s, q, proof) && s.qrs[q].user in s.users && s.qrs[q].session in s.sessions
    requires s.qrs[q].status in {QrConsumed, QrRevoked}
    requires s.sessions[s.qrs[q].session].aal == AAL2
    ensures var (t, reply) := CompleteQr(s, x, q, proof);
            && (reply == Accepted <==> s.qrs[q].status == QrConsumed && s.sessions[s.qrs[q].session].status == ACTIVE)
            && t == s
  {
  }

  /** A browser that completed its QR sign-in may ask again, say because the reply was lost,
      after any requests of anybody. It is answered again exactly when its session is still
      ACTIVE and nobody has scanned the code a second time; either way nothing changes. So a
      second scan of a used code takes the way back to the reply, and leaves the session. */
  lemma QrCompletionIsRetrySafe(c: Config, worlds: seq<World>, events: seq<Event>, q: Id, proof: Token, i: nat, j: nat)
    requires IsRun(c, worlds, events) && i < j < |events| && |worlds| == |events| + 1
    requires events[i].request == QrComplete(q, proof) && Step(c, worlds[i].db, events[i]).1 == Accepted
    requires events[j].request == QrComplete(q, proof)
    ensures q in worlds[j].db.qrs && worlds[j].db.qrs[q].session in worlds[j].db.sessions
    ensures worlds[j].db.sessions[worlds[j].db.qrs[q].session].aal == AAL2
    ensures Step(c, worlds[j].db, events[j]).0 == worlds[j].db
    ensures Step(c, worlds[j].db, events[j]).1 == Accepted
            <==> worlds[j].db.sessions[worlds[j].db.qrs[q].session].status == ACTIVE
                 && forall k :: i < k < j ==> !Scans(worlds[k].db, events[k], q)
  {
    hide IsRun, Inv, Scans, CompleteQr, SessionsEvolve;
    RunStep(c, worlds, events, i);
    AcceptedIsConsumed(worlds[i].db, events[i].ctx, q, proof);
    ConsumedUntilScanned(c, worlds, events, q, i + 1, j);
    RunKeeps(c, worlds, events, i + 1);
    SpentIsNotWaiting(c, worlds[i + 1], q);
    RunEvolves(c, worlds, events, i + 1, j);
    StaysAal2(worlds[i + 1].db.sessions, worlds[j].db.sessions, worlds[j].db.qrs[q].session);
    ConsumedAnswers(worlds[j].db, events[j].ctx, q, proof);
  }

  lemma StaysAal2(sessions: Sessions, later: Sessions, session: Id)
    requires SessionsEvolve(sessions, later) && session in sessions && sessions[session].aal == AAL2
    ensures session in later && later[session].aal == AAL2
  {
    assert SessionEvolves(sessions[session], later[session]);
  }
}
