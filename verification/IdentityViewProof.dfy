/** The handlers move the rows as the row view says. */
module IdentityViewProof {
  import opened IdentityModel
  import opened IdentityInvariants
  import opened IdentityProtocol
  import opened IdentityView
  import opened IdentityViewAccounts
  import opened IdentityViewCodes
  import opened IdentityViewDevices

  // ------------------------------------------------------------ any request

  /** Every request of every kind is granted exactly when the row view says so, and leaves
      every row of every table exactly as the row view says. */
  lemma StepSays(c: Config, w: World, e: Event)
    requires FreshMint(w, e.mint) && OneTrusted(w.db.approvals) && (e.request.RefreshWith? ==> OneHolder(w.db, e.request.proof))
    ensures Says(c, w.db, e, Step(c, w.db, e).0, Step(c, w.db, e).1)
  {
    hide SignIn, Register, VerifyEmailOtp, CreateQr, ReadQr, CancelQr, ScanQr, DecideQr, CompleteQr, BreakGlass;
    hide RequestActivation, ClaimActivation, RevokeSession, ChangePassword, RecoverPassword, IssueRecovery, ResetMfa;
    hide Refresh, SignOut, VerifyMfa, ReviewDevice, DecideDevice, ReadDevice, RevokeDevice, CompleteDevice;
    hide Says, Closing, FreshMint, OneTrusted, OneHolder;
    var s := w.db;
    var (t, reply) := Step(c, s, e);
    match e.request
    case SignInWith(_, _) => SignInSays(c, w, e, t, reply);
    case RegisterAs(_) => RegisterSays(c, w, e, t, reply);
    case VerifyEmailCode(_, _, _, _) => MailboxSays(c, w, e, t, reply);
    case StartQr(_) => StartSays(c, w, e, t, reply);
    case QrStatusOf(_, _) => BrowserSays(c, s, e, t, reply);
    case QrCancel(_, _) => BrowserSays(c, s, e, t, reply);
    case QrScan(_, _, _, _) => ScanSays(c, s, e, t, reply);
    case QrDecide(_, _, _, _) => DecideSays(c, s, e, t, reply);
    case QrComplete(_, _) => ComeSays(c, s, e, t, reply);
    case AskActivation(_) => AskSays(c, w, e, t, reply);
    case Claim(_, _) => ClaimSays(c, s, e, t, reply);
    case EndSession(_, _) => EndOtherSays(c, s, e, t, reply);
    case NewPassword(_, _) =>
      NewPasswordRows(s, e, t, reply);
      ClosingSays(c, s, e, t, reply);
    case Recover(_, _) =>
      RecoveredRows(s, e, t, reply);
      ClosingSays(c, s, e, t, reply);
    case RecoveryLink(_, _, _) =>
      DelegatedRows(s, e, t, reply);
      ClosingSays(c, s, e, t, reply);
    case FactorReset(_, _, _) =>
      DelegatedRows(s, e, t, reply);
      ClosingSays(c, s, e, t, reply);
    case FounderRecovery(_, _) =>
      RecoveredRows(s, e, t, reply);
      ClosingSays(c, s, e, t, reply);
    case RefreshWith(_) => RefreshSays(c, s, e, t, reply);
    case SignOutOf(_) => SignOutSays(c, s, e, t, reply);
    case Totp(_, _, _, _) => CodeSaid(c, w, e, t, reply);
    case DeviceReview(_, _) => AskedSays(c, s, e, t, reply);
    case DeviceDecide(_, _, _) => AskedSays(c, s, e, t, reply);
    case DeviceStatusOf(_, _) => AskedSays(c, s, e, t, reply);
    case DeviceRevoke(_, _, _) => GiveUpSays(c, s, e, t, reply);
    case DeviceComplete(_, _) => CompleteSays(c, s, e, t, reply);
  }
}
