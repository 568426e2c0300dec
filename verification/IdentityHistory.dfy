/** What each log entry says about the step that wrote it, and the evidence theorem over runs. */
module IdentityHistory {
  import opened IdentityModel
  import opened IdentityInvariants
  import opened IdentitySteps
  import opened IdentityEvidence
  import opened IdentityWitness
  import opened IdentityProtocol
  import opened IdentitySafety

  predicate NamesSession(s: State, x: Ctx, claims: Option<Claims>, session: Id, user: Id) {
    && claims.Some? && claims.value.session == session && claims.value.user == user
    && session in s.sessions && s.sessions[session].user == user
    && s.sessions[session].status == ACTIVE && x.now < s.sessions[session].expiresAt
  }

  predicate ScannerTrusted(s: State, x: Ctx, claims: Option<Claims>, device: DeviceClaim, qr: Id, d: Id) {
    && claims.Some? && device.Device? && device.approval == d
    && KnownDevice(s, claims.value.user, device, x.now)
    && qr in s.qrs && s.qrs[qr].user == claims.value.user
  }

  /** The state and the request in which a fact may be written. */
  predicate Meaning(c: Config, s: State, e: Event, f: Fact) {
    var x := e.ctx;
    match f
    case TotpAccepted(session, user, counter, basis) =>
      && e.request.Totp? && NamesSession(s, x, e.request.claims, session, user)
      && s.sessions[session].aal == AAL1 && s.sessions[session].purpose == OFFICE
      && user in s.users && s.users[user].enrolled && e.request.matched == Some(counter)
      && (s.users[user].lastCounter.Some? ==> s.users[user].lastCounter.value < counter)
      && (basis == ApprovalOff ==> !c.deviceApprovalRequired)
      && (basis.Known? ==> KnownDevice(s, user, e.request.device, x.now) && e.request.device.approval == basis.device)
      && !basis.Reviewer?
    case EmailVerified(session, user, basis) =>
      && e.request.VerifyEmailCode? && e.request.user == user && user in s.users && session == e.mint.id
      && (basis.Known? ==> KnownDevice(s, user, e.request.device, x.now) && e.request.device.approval == basis.device)
      && (basis.Reviewer? ==> e.request.reviewer && basis.device == e.mint.approval)
      && basis != ApprovalOff
    case MailboxApproved(approval, session) =>
      && e.request.DeviceDecide? && e.request.approval == approval && e.request.approve
      && HoldsOwnerToken(s, approval, e.request.proof)
      && s.approvals[approval].session == session && s.approvals[approval].status == ApprovalPending
      && x.now < s.approvals[approval].expiresAt
    case DeviceCompleted(approval, session) =>
      && e.request.DeviceComplete? && e.request.approval == approval
      && HoldsDeviceProof(s, approval, e.request.proof)
      && s.approvals[approval].session == session && s.approvals[approval].status == ApprovalApproved
      && session in s.sessions && s.sessions[session].status == PENDING_DEVICE_APPROVAL
    case Scanned(qr, session, device) =>
      && e.request.QrScan? && e.request.qr == qr
      && ScannerTrusted(s, x, e.request.claims, e.request.device, qr, device)
      && s.qrs[qr].scanHash == Sha256(e.request.proof)
      && s.qrs[qr].session == session && s.qrs[qr].status == QrPending && AwaitingFactor(s, session)
    case Approved(qr, session, device) =>
      && e.request.QrDecide? && e.request.qr == qr && e.request.approve
      && ScannerTrusted(s, x, e.request.claims, e.request.device, qr, device)
      && s.qrs[qr].session == session && s.qrs[qr].status == QrScanned
    case Completed(qr, session) =>
      && e.request.QrComplete? && e.request.qr == qr && HoldsBrowserProof(s, qr, e.request.proof)
      && s.qrs[qr].session == session && s.qrs[qr].status == QrApproved && AwaitingFactor(s, session)
    case FactorRotated(user, activation) =>
      && e.request.Claim? && e.request.activation == activation
      && activation in s.activations && s.activations[activation].status == Live
      && s.activations[activation].user == user && x.now < s.activations[activation].expiresAt
      && s.activations[activation].claimHash == Sha256(e.request.proof)
      && ActivationStillBound(s, s.activations[activation], x.now)
    case FactorRemoved(user) =>
      (e.request.FactorReset? || e.request.FounderRecovery?) && e.request.user == user && user in s.users
    case RefreshAccepted(session, token) =>
      && e.request.RefreshWith? && e.request.proof == token && HoldsRefresh(s, token, session)
      && s.sessions[session].status == ACTIVE && x.now < s.sessions[session].expiresAt
  }

  ghost predicate LogsWell(c: Config, s: State, e: Event, t: State) {
    t.log == s.log || (exists f :: t.log == s.log + [f] && Meaning(c, s, e, f))
  }

  lemma Silent(c: Config, s: State, e: Event)
    requires Step(c, s, e).0.log == s.log
    ensures LogsWell(c, s, e, Step(c, s, e).0)
  {
    hide Step, Meaning;
  }

  lemma Wrote(c: Config, s: State, e: Event, f: Fact)
    requires Step(c, s, e).0.log == s.log + [f] && Meaning(c, s, e, f)
    ensures LogsWell(c, s, e, Step(c, s, e).0)
  {
    hide Step, Meaning;
  }

  lemma TotpLogs(c: Config, s: State, e: Event)
    requires e.request.Totp?
    ensures LogsWell(c, s, e, Step(c, s, e).0)
  {
    hide TrustLapsed, LogsWell;
    if Step(c, s, e).0.log != s.log {
      var Totp(claims, matched, device, mail) := e.request;
      var user := claims.value.user;
      var basis := if !c.deviceApprovalRequired then ApprovalOff
                   else if KnownDevice(s, user, device, e.ctx.now) then Known(device.approval) else Held;
      Wrote(c, s, e, TotpAccepted(claims.value.session, user, matched.value, basis));
    } else {
      Silent(c, s, e);
    }
  }

  lemma EmailLogs(c: Config, s: State, e: Event)
    requires e.request.VerifyEmailCode?
    ensures LogsWell(c, s, e, Step(c, s, e).0)
  {
    hide TrustLapsed, RevokeTrusted, CancelReplaced, LogsWell;
    if Step(c, s, e).0.log != s.log {
      var VerifyEmailCode(user, reviewer, device, mail) := e.request;
      var basis := if reviewer then Reviewer(e.mint.approval)
                   else if KnownDevice(s, user, device, e.ctx.now) then Known(device.approval) else Held;
      Wrote(c, s, e, EmailVerified(e.mint.id, user, basis));
    } else {
      Silent(c, s, e);
    }
  }

  lemma DecideDeviceLogs(c: Config, s: State, e: Event)
    requires e.request.DeviceDecide?
    ensures LogsWell(c, s, e, Step(c, s, e).0)
  {
    hide LogsWell;
    var t := Step(c, s, e).0;
    if t.log != s.log {
      Wrote(c, s, e, t.log[|s.log|]);
    } else {
      Silent(c, s, e);
    }
  }

  lemma CompleteDeviceLogs(c: Config, s: State, e: Event)
    requires e.request.DeviceComplete?
    ensures LogsWell(c, s, e, Step(c, s, e).0)
  {
    hide RevokeTrusted, RevokeReplacedSessions, CancelReplaced, TrustLapsed, LogsWell;
    var t := Step(c, s, e).0;
    if t.log != s.log {
      Wrote(c, s, e, t.log[|s.log|]);
    } else {
      Silent(c, s, e);
    }
  }

  lemma ScanLogs(c: Config, s: State, e: Event)
    requires e.request.QrScan?
    ensures LogsWell(c, s, e, Step(c, s, e).0)
  {
    hide TrustLapsed, LogsWell;
    var t := Step(c, s, e).0;
    if t.log != s.log {
      Wrote(c, s, e, t.log[|s.log|]);
    } else {
      Silent(c, s, e);
    }
  }

  lemma DecideQrLogs(c: Config, s: State, e: Event)
    requires e.request.QrDecide?
    ensures LogsWell(c, s, e, Step(c, s, e).0)
  {
    hide TrustLapsed, LogsWell;
    var t := Step(c, s, e).0;
    if t.log != s.log {
      Wrote(c, s, e, t.log[|s.log|]);
    } else {
      Silent(c, s, e);
    }
  }

  lemma CompleteQrLogs(c: Config, s: State, e: Event)
    requires e.request.QrComplete?
    ensures LogsWell(c, s, e, Step(c, s, e).0)
  {
    hide LogsWell;
    var t := Step(c, s, e).0;
    if t.log != s.log {
      Wrote(c, s, e, t.log[|s.log|]);
    } else {
      Silent(c, s, e);
    }
  }

  lemma ClaimLogs(c: Config, s: State, e: Event)
    requires e.request.Claim?
    ensures LogsWell(c, s, e, Step(c, s, e).0)
  {
    hide LogsWell, ActivationStillBound;
    var t := Step(c, s, e).0;
    if t.log != s.log {
      Wrote(c, s, e, t.log[|s.log|]);
    } else {
      Silent(c, s, e);
    }
  }

  lemma ResetLogs(c: Config, s: State, e: Event)
    requires e.request.FactorReset? || e.request.FounderRecovery?
    ensures LogsWell(c, s, e, Step(c, s, e).0)
  {
    hide LogsWell, RevokeActive, CancelLive, Authenticate;
    var t := Step(c, s, e).0;
    if t.log != s.log {
      Wrote(c, s, e, t.log[|s.log|]);
    } else {
      Silent(c, s, e);
    }
  }

  lemma RefreshLogs(c: Config, s: State, e: Event)
    requires e.request.RefreshWith?
    ensures LogsWell(c, s, e, Step(c, s, e).0)
  {
    hide LogsWell, RefreshRow;
    if exists id :: HoldsRefresh(s, e.request.proof, id) {
      forall id | HoldsRefresh(s, e.request.proof, id)
        ensures LogsWell(c, s, e, RefreshRow(s, e.ctx, id, e.request.proof, e.mint.refresh).0)
      {
        RefreshRowLogs(c, s, e, id);
      }
    } else {
      Silent(c, s, e);
    }
  }

  lemma RefreshRowLogs(c: Config, s: State, e: Event, id: Id)
    requires e.request.RefreshWith? && HoldsRefresh(s, e.request.proof, id)
    ensures LogsWell(c, s, e, RefreshRow(s, e.ctx, id, e.request.proof, e.mint.refresh).0)
  {
    var t := RefreshRow(s, e.ctx, id, e.request.proof, e.mint.refresh).0;
    if t.log != s.log {
      assert Meaning(c, s, e, RefreshAccepted(id, e.request.proof));
    }
  }

  lemma SilentSessions(c: Config, s: State, e: Event)
    requires e.request.SignInWith? || e.request.RegisterAs? || e.request.EndSession? || e.request.NewPassword?
             || e.request.Recover? || e.request.RecoveryLink? || e.request.SignOutOf?
    ensures Step(c, s, e).0.log == s.log
  {
    hide Authenticate, RevokeActive, CancelLive;
  }

  lemma SilentQrs(c: Config, s: State, e: Event)
    requires e.request.StartQr? || e.request.QrStatusOf? || e.request.QrCancel?
    ensures Step(c, s, e).0.log == s.log
  {
    hide Authenticate;
  }

  lemma SilentDevices(c: Config, s: State, e: Event)
    requires e.request.AskActivation? || e.request.DeviceReview? || e.request.DeviceStatusOf? || e.request.DeviceRevoke?
    ensures Step(c, s, e).0.log == s.log
  {
    hide Authenticate, CancelLive;
  }

  /** Every entry says something true of the step that wrote it. */
  lemma StepLogs(c: Config, s: State, e: Event)
    ensures LogsWell(c, s, e, Step(c, s, e).0)
  {
    hide Step, Meaning;
    match e.request
    case Totp(_, _, _, _) => TotpLogs(c, s, e);
    case VerifyEmailCode(_, _, _, _) => EmailLogs(c, s, e);
    case DeviceDecide(_, _, _) => DecideDeviceLogs(c, s, e);
    case DeviceComplete(_, _) => CompleteDeviceLogs(c, s, e);
    case QrScan(_, _, _, _) => ScanLogs(c, s, e);
    case QrDecide(_, _, _, _) => DecideQrLogs(c, s, e);
    case QrComplete(_, _) => CompleteQrLogs(c, s, e);
    case Claim(_, _) => ClaimLogs(c, s, e);
    case FactorReset(_, _, _) => ResetLogs(c, s, e);
    case FounderRecovery(_, _) => ResetLogs(c, s, e);
    case RefreshWith(_) => RefreshLogs(c, s, e);
    case StartQr(_) => SilentQrs(c, s, e); Silent(c, s, e);
    case QrStatusOf(_, _) => SilentQrs(c, s, e); Silent(c, s, e);
    case QrCancel(_, _) => SilentQrs(c, s, e); Silent(c, s, e);
    case AskActivation(_) => SilentDevices(c, s, e); Silent(c, s, e);
    case DeviceReview(_, _) => SilentDevices(c, s, e); Silent(c, s, e);
    case DeviceStatusOf(_, _) => SilentDevices(c, s, e); Silent(c, s, e);
    case DeviceRevoke(_, _, _) => SilentDevices(c, s, e); Silent(c, s, e);
    case _ => SilentSessions(c, s, e); Silent(c, s, e);
  }

  lemma StepShows(c: Config, w: World, e: Event)
    requires ValidConfig(c) && Possible(w, e) && Inv(c, w.db, w.clock) && Shown(w.db)
    ensures Shown(Step(c, w.db, e).0)
  {
    hide Shown, SignIn, Register, VerifyEmailOtp, CreateQr, ReadQr, CancelQr, ScanQr, DecideQr, CompleteQr;
    hide RequestActivation, ClaimActivation, RevokeSession, ChangePassword, RecoverPassword, IssueRecovery, ResetMfa;
    hide BreakGlass;
    hide Refresh, SignOut, VerifyMfa, ReviewDevice, DecideDevice, ReadDevice, RevokeDevice, CompleteDevice;
    hide ApprovalsLinked, ActivationsLinked, QrsLinked, SessionsLegal, LiveBound;
    hide OneApprovalPerSession, OneTrusted, TrustHasTerm, OneLive, OneQr;
    var Event(x, m, request) := e;
    var s := w.db;
    match request
    case SignInWith(user, accepted) => SignInShows(c, s, x, user, accepted, m.id, m.refresh);
    case RegisterAs(user) => SignInShows(c, s, x, user, true, m.id, m.refresh);
    case VerifyEmailCode(user, reviewer, device, mail) =>
      VerifyEmailOtpShows(c, s, x, user, reviewer, device, mail, m.id, m.refresh, m.approval, m.first, m.second);
    case StartQr(claims) => CreateQrShows(c, s, x, claims, m.id, m.first, m.second);
    case QrStatusOf(qr, proof) => ReadQrShows(s, x, qr, proof);
    case QrCancel(qr, proof) => ReadQrShows(s, x, qr, proof);
    case QrScan(claims, device, qr, proof) => ScanQrShows(s, x, claims, device, qr, proof);
    case QrDecide(claims, device, qr, approve) => DecideQrShows(s, x, claims, device, qr, approve);
    case QrComplete(qr, proof) => CompleteQrShows(s, x, qr, proof);
    case AskActivation(claims) => RequestActivationShows(c, s, x, claims, m.id, m.first);
    case Claim(activation, proof) => ClaimActivationShows(s, x, activation, proof);
    case EndSession(claims, target) => RevokeSessionShows(s, x, claims, target);
    case NewPassword(claims, accepted) => ChangePasswordShows(s, x, claims, accepted);
    case Recover(user, accepted) => AccountShows(s, x, None, user, accepted);
    case RecoveryLink(claims, user, permitted) => AccountShows(s, x, claims, user, permitted);
    case FactorReset(claims, user, permitted) => AccountShows(s, x, claims, user, permitted);
    case FounderRecovery(user, keyAccepted) => AccountShows(s, x, None, user, keyAccepted);
    case RefreshWith(proof) => RefreshShows(s, x, proof, m.refresh);
    case SignOutOf(claims) => SignOutShows(s, x, claims);
    case Totp(claims, matched, device, mail) =>
      VerifyMfaShows(c, s, x, claims, matched, device, mail, m.approval, m.first, m.second);
    case DeviceReview(approval, proof) => ReadDeviceShows(s, x, approval, proof);
    case DeviceDecide(approval, proof, approve) => DecideDeviceShows(s, x, approval, proof, approve);
    case DeviceStatusOf(approval, proof) => ReadDeviceShows(s, x, approval, proof);
    case DeviceRevoke(claims, approval, proof) => RevokeDeviceShows(s, x, claims, approval, proof);
    case DeviceComplete(approval, proof) => CompleteDeviceShows(c, s, x, approval, proof, m.refresh);
  }

  // -------------------------------------------------------------- over runs

  lemma {:induction false} RunShows(c: Config, worlds: seq<World>, events: seq<Event>, n: nat)
    requires IsRun(c, worlds, events) && n <= |events|
    ensures |worlds| == |events| + 1 && Shown(worlds[n].db)
  {
    hide Inv, Step, IsRun;
    RunStart(c, worlds, events);
    if n > 0 {
      hide Shown;
      RunShows(c, worlds, events, n - 1);
      RunKeeps(c, worlds, events, n - 1);
      RunStep(c, worlds, events, n - 1);
      StepShows(c, worlds[n - 1], events[n - 1]);
    }
  }

  /** In every world of every run, an ACTIVE aal2 session has its evidence in the log. */
  lemma Aal2HasEvidence(c: Config, worlds: seq<World>, events: seq<Event>, n: nat, id: Id)
    requires IsRun(c, worlds, events) && n <= |events|
    requires id in worlds[n].db.sessions
    requires worlds[n].db.sessions[id].status == ACTIVE && worlds[n].db.sessions[id].aal == AAL2
    ensures Evidence(worlds[n].db.log, id, worlds[n].db.sessions[id].user, worlds[n].db.sessions[id].purpose)
  {
    hide Step;
    RunShows(c, worlds, events, n);
    RowShown(worlds[n].db, id);
  }

  /** The step of a run at which a log entry was written, and what held there. */
  lemma {:induction false} EntryHasStep(c: Config, worlds: seq<World>, events: seq<Event>, n: nat,
                                        k: nat) returns (i: nat)
    requires IsRun(c, worlds, events) && n <= |events| && k < |worlds[n].db.log|
    ensures i < n && |worlds| == |events| + 1 && |worlds[i].db.log| <= k < |worlds[i + 1].db.log|
    ensures Meaning(c, worlds[i].db, events[i], worlds[n].db.log[k])
  {
    hide Inv, Step, Meaning, IsRun;
    RunStart(c, worlds, events);
    if n == 0 {
      assert false;
    } else {
      RunStep(c, worlds, events, n - 1);
      StepLogs(c, worlds[n - 1].db, events[n - 1]);
      if k < |worlds[n - 1].db.log| {
        i := EntryHasStep(c, worlds, events, n - 1, k);
      } else {
        i := n - 1;
      }
    }
  }
}
