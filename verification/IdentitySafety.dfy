/** The invariant over whole runs. */
module IdentitySafety {
  import opened IdentityModel
  import opened IdentityInvariants
  import opened IdentitySteps
  import opened IdentityProtocol

  lemma StepKeeps(c: Config, w: World, e: Event)
    requires ValidConfig(c) && Possible(w, e)
    requires Inv(c, w.db, w.clock)
    ensures Kept(c, w.db, Step(c, w.db, e).0, e.ctx.now)
  {
    hide Kept, Inv, SignIn, Register, VerifyEmailOtp, CreateQr, ReadQr, CancelQr, ScanQr, DecideQr, CompleteQr;
    hide RequestActivation, ClaimActivation, RevokeSession, ChangePassword, RecoverPassword, IssueRecovery, ResetMfa;
    hide BreakGlass;
    hide Refresh, SignOut, VerifyMfa, ReviewDevice, DecideDevice, ReadDevice, RevokeDevice, CompleteDevice;
    var Event(x, m, request) := e;
    var s := w.db;
    LaterIsFine(c, s, w.clock, x.now);
    match request
    case SignInWith(user, accepted) => SignInKeeps(c, s, x, user, accepted, m.id, m.refresh);
    case RegisterAs(user) => RegisterKeeps(c, s, x, user, m.id, m.refresh);
    case VerifyEmailCode(user, reviewer, device, mail) =>
      VerifyEmailOtpKeeps(c, s, x, user, reviewer, device, mail, m.id, m.refresh, m.approval, m.first, m.second);
    case StartQr(claims) => CreateQrKeeps(c, s, x, claims, m.id, m.first, m.second);
    case QrStatusOf(qr, proof) => ReadQrKeeps(c, s, x, qr, proof);
    case QrCancel(qr, proof) => CancelQrKeeps(c, s, x.now, qr, proof);
    case QrScan(claims, device, qr, proof) => ScanQrKeeps(c, s, x, claims, device, qr, proof);
    case QrDecide(claims, device, qr, approve) => DecideQrKeeps(c, s, x, claims, device, qr, approve);
    case QrComplete(qr, proof) => CompleteQrKeeps(c, s, x, qr, proof);
    case AskActivation(claims) => RequestActivationKeeps(c, s, x, claims, m.id, m.first);
    case Claim(activation, proof) => ClaimActivationKeeps(c, s, x, activation, proof);
    case EndSession(claims, target) => RevokeSessionKeeps(c, s, x, claims, target);
    case NewPassword(claims, accepted) => ChangePasswordKeeps(c, s, x, claims, accepted);
    case Recover(user, accepted) => RecoverPasswordKeeps(c, s, x.now, user, accepted);
    case RecoveryLink(claims, user, permitted) => IssueRecoveryKeeps(c, s, x, claims, user, permitted);
    case FactorReset(claims, user, permitted) => ResetMfaKeeps(c, s, x, claims, user, permitted);
    case FounderRecovery(user, keyAccepted) => BreakGlassKeeps(c, s, x.now, user, keyAccepted);
    case RefreshWith(proof) => RefreshKeeps(c, s, x, proof, m.refresh);
    case SignOutOf(claims) => SignOutKeeps(c, s, x, claims);
    case Totp(claims, matched, device, mail) =>
      VerifyMfaKeeps(c, s, x, claims, matched, device, mail, m.approval, m.first, m.second);
    case DeviceReview(approval, proof) => ReadDeviceKeeps(c, s, x, approval, proof);
    case DeviceDecide(approval, proof, approve) => DecideDeviceKeeps(c, s, x, approval, proof, approve);
    case DeviceStatusOf(approval, proof) => ReadDeviceKeeps(c, s, x, approval, proof);
    case DeviceRevoke(claims, approval, proof) => RevokeDeviceKeeps(c, s, x, claims, approval, proof);
    case DeviceComplete(approval, proof) => CompleteDeviceKeeps(c, s, x, approval, proof, m.refresh);
  }

  lemma ChangePasswordKeeps(c: Config, s: State, x: Ctx, claims: Option<Claims>, accepted: bool)
    requires Inv(c, s, x.now)
    ensures Kept(c, s, ChangePassword(s, x, claims, accepted).0, x.now)
  {
    hide Inv, SessionsEvolve;
    KeptAsIs(c, s, x.now);
    if claims.Some? {
      CloseAccountKeeps(c, s, x.now, claims.value.user, Some(claims.value.session));
    }
  }

  lemma RecoverPasswordKeeps(c: Config, s: State, now: Time, user: Id, accepted: bool)
    requires Inv(c, s, now)
    ensures Kept(c, s, RecoverPassword(s, user, accepted).0, now)
  {
    hide Inv, SessionsEvolve;
    KeptAsIs(c, s, now);
    CloseAccountKeeps(c, s, now, user, None);
  }

  lemma IssueRecoveryKeeps(c: Config, s: State, x: Ctx, claims: Option<Claims>, user: Id, permitted: bool)
    requires Inv(c, s, x.now)
    ensures Kept(c, s, IssueRecovery(s, x, claims, user, permitted).0, x.now)
  {
    hide Inv, SessionsEvolve;
    KeptAsIs(c, s, x.now);
    CloseAccountKeeps(c, s, x.now, user, None);
  }

  lemma ResetMfaKeeps(c: Config, s: State, x: Ctx, claims: Option<Claims>, user: Id, permitted: bool)
    requires Inv(c, s, x.now)
    ensures Kept(c, s, ResetMfa(s, x, claims, user, permitted).0, x.now)
  {
    hide Inv, SessionsEvolve;
    KeptAsIs(c, s, x.now);
    RemoveFactorKeeps(c, s, x.now, user);
  }

  lemma BreakGlassKeeps(c: Config, s: State, now: Time, user: Id, keyAccepted: bool)
    requires Inv(c, s, now)
    ensures Kept(c, s, BreakGlass(s, user, keyAccepted).0, now)
  {
    hide Inv, SessionsEvolve;
    KeptAsIs(c, s, now);
    RemoveFactorKeeps(c, s, now, user);
  }

  lemma RunStep(c: Config, worlds: seq<World>, events: seq<Event>, n: nat)
    requires IsRun(c, worlds, events) && n < |events|
    ensures ValidConfig(c) && |worlds| == |events| + 1
    ensures Possible(worlds[n], events[n]) && worlds[n + 1] == Next(c, worlds[n], events[n])
  {
    hide Step;
  }

  lemma RunStart(c: Config, worlds: seq<World>, events: seq<Event>)
    requires IsRun(c, worlds, events)
    ensures ValidConfig(c) && |worlds| == |events| + 1 && worlds[0] == EMPTY
  {
    hide Step;
  }

  lemma LongerRun(c: Config, worlds: seq<World>, events: seq<Event>, e: Event)
    requires IsRun(c, worlds, events) && Possible(worlds[|events|], e)
    ensures IsRun(c, worlds + [Next(c, worlds[|events|], e)], events + [e])
  {
    hide Step;
  }

  /** The invariant holds in every world of every run. */
  lemma {:induction false} RunKeeps(c: Config, worlds: seq<World>, events: seq<Event>, n: nat)
    requires IsRun(c, worlds, events) && n <= |events|
    ensures |worlds| == |events| + 1 && Inv(c, worlds[n].db, worlds[n].clock)
  {
    hide Step, IsRun;
    RunStart(c, worlds, events);
    if n > 0 {
      hide Inv;
      RunKeeps(c, worlds, events, n - 1);
      RunStep(c, worlds, events, n - 1);
      StepKeeps(c, worlds[n - 1], events[n - 1]);
    }
  }

  /** Between any two worlds of a run: no session is lost or changes hands, aal2 is
      never lowered, and a revoked session stays revoked at the assurance it had. */
  lemma {:induction false} RunEvolves(c: Config, worlds: seq<World>, events: seq<Event>, i: nat, j: nat)
    requires IsRun(c, worlds, events) && i <= j <= |events|
    ensures |worlds| == |events| + 1 && SessionsEvolve(worlds[i].db.sessions, worlds[j].db.sessions)
    decreases j
  {
    hide Step, IsRun, Inv;
    RunStart(c, worlds, events);
    if i < j {
      RunEvolves(c, worlds, events, i, j - 1);
      RunKeeps(c, worlds, events, j - 1);
      RunStep(c, worlds, events, j - 1);
      StepKeeps(c, worlds[j - 1], events[j - 1]);
    }
  }
}
