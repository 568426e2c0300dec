/** The row view of sign-in, sign-out, account and refresh requests. */
module IdentityViewAccounts {
  import opened IdentityModel
  import opened IdentityInvariants
  import opened IdentityProtocol
  import opened IdentityView

  // ---------------------------------------- tables a request has no part in

  predicate OnApprovals(r: Request) {
    || r.VerifyEmailCode? || r.Totp? || r.DeviceReview? || r.DeviceDecide? || r.DeviceStatusOf? || r.DeviceRevoke?
    || r.DeviceComplete?
  }

  predicate OnQrs(r: Request) { r.StartQr? || r.QrStatusOf? || r.QrCancel? || r.QrScan? || r.QrDecide? || r.QrComplete? }

  predicate OnActivations(r: Request) {
    || r.VerifyEmailCode? || r.AskActivation? || r.Claim? || r.SignOutOf? || r.NewPassword? || r.Recover? || r.RecoveryLink?
    || r.FactorReset? || r.FounderRecovery? || r.DeviceRevoke? || r.DeviceComplete?
  }

  predicate OnUsers(r: Request) { r.RegisterAs? || r.Totp? || r.Claim? || r.FactorReset? || r.FounderRecovery? }

  predicate OnSessions(r: Request) {
    !(r.StartQr? || r.QrStatusOf? || r.QrCancel? || r.QrScan? || r.AskActivation? || r.Claim?)
  }

  lemma ApprovalsSame(c: Config, s: State, e: Event, t: State)
    requires !OnApprovals(e.request) && t.approvals == s.approvals
    ensures ApprovalsSay(c, s, e, t)
  {
  }

  lemma QrsSame(c: Config, s: State, e: Event, t: State)
    requires !OnQrs(e.request) && t.qrs == s.qrs
    ensures QrsSay(c, s, e, t)
  {
  }

  lemma ActivationsSame(c: Config, s: State, e: Event, t: State)
    requires !OnActivations(e.request) && t.activations == s.activations
    ensures ActivationsSay(c, s, e, t)
  {
    hide IsPhone, IsTrusted;
  }

  lemma UsersSame(s: State, e: Event, t: State)
    requires !OnUsers(e.request) && t.users == s.users
    ensures UsersSay(s, e, t)
  {
  }

  lemma SessionsSame(c: Config, s: State, e: Event, t: State)
    requires !OnSessions(e.request) && t.sessions == s.sessions
    ensures SessionsSay(c, s, e, t)
  {
    forall id | id in s.sessions ensures SessionAfter(c, s, e, id) == s.sessions[id] {
      QuietSession(c, s, e, id);
    }
    hide SessionAfter;
  }

  lemma QuietSession(c: Config, s: State, e: Event, id: Id)
    requires !OnSessions(e.request) && id in s.sessions
    ensures SessionAfter(c, s, e, id) == s.sessions[id]
  {
    hide IsCaller, IsTrusted;
  }

  /** A session is touched by neither a code nor an approval nor a QR code. */
  lemma PlainSession(c: Config, s: State, e: Event, id: Id)
    requires id in s.sessions
    requires e.request.SignInWith? || e.request.RegisterAs? || e.request.VerifyEmailCode? || e.request.EndSession? || e.request.NewPassword?
          || e.request.Recover? || e.request.RecoveryLink? || e.request.FactorReset? || e.request.FounderRecovery? || e.request.SignOutOf?
    ensures SessionAfter(c, s, e, id)
         == if SignsOut(s, e, id)
               || (s.sessions[id].status == ACTIVE
                   && (EndsOther(s, e, id)
                       || (Closes(s, e, s.sessions[id].user) && !(e.request.NewPassword? && e.request.claims.value.session == id))))
            then Revoked(s.sessions[id]) else s.sessions[id]
  {
    hide IsCaller, IsTrusted;
  }

  /** Authentication admits exactly the callers. */
  lemma AdmitsExactly(s: State, x: Ctx, claims: Option<Claims>, needAal2: bool, purposes: set<Purpose>)
    ensures Authenticate(s, x, claims, needAal2, purposes).None?
       <==> IsCaller(s, x, claims) && s.sessions[claims.value.session].purpose in purposes
            && (needAal2 ==> s.sessions[claims.value.session].aal == AAL2)
  {
  }

  lemma KnownExactly(s: State, user: Id, d: DeviceClaim, now: Time)
    ensures KnownDevice(s, user, d, now) <==> IsKnown(s, user, d, now)
  {
  }

  // ------------------------------------------------------ sign-in and account

  lemma BegunSessions(c: Config, s: State, e: Event, t: State)
    requires e.mint.id !in s.sessions && (e.request.SignInWith? || e.request.RegisterAs?)
    requires t.sessions == if Begins(s, e) then s.sessions[e.mint.id := NewSession(c, s, e)] else s.sessions
    ensures SessionsSay(c, s, e, t)
  {
    hide SessionAfter, Begins, NewSession;
    forall id | id in s.sessions ensures SessionAfter(c, s, e, id) == s.sessions[id] { BeginningLeaves(c, s, e, id); }
  }

  lemma BeginningLeaves(c: Config, s: State, e: Event, id: Id)
    requires id in s.sessions && (e.request.SignInWith? || e.request.RegisterAs?)
    ensures SessionAfter(c, s, e, id) == s.sessions[id]
  {
    PlainSession(c, s, e, id);
    hide SessionAfter;
  }

  lemma SignInRows(c: Config, s: State, e: Event, t: State, reply: Reply)
    requires e.request.SignInWith? && (t, reply) == SignIn(c, s, e.ctx, e.request.user, e.request.accepted, e.mint.id, e.mint.refresh)
    ensures t == s.(sessions := t.sessions) && (!reply.Refused? <==> Begins(s, e))
    ensures t.sessions == if Begins(s, e) then s.sessions[e.mint.id := NewSession(c, s, e)] else s.sessions
  {
  }

  lemma SignInSays(c: Config, w: World, e: Event, t: State, reply: Reply)
    requires FreshMint(w, e.mint) && e.request.SignInWith?
    requires (t, reply) == SignIn(c, w.db, e.ctx, e.request.user, e.request.accepted, e.mint.id, e.mint.refresh)
    ensures Says(c, w.db, e, t, reply)
  {
    hide SessionsSay, ApprovalsSay, QrsSay, ActivationsSay, UsersSay, SignIn, NewSession, Begins;
    SignInRows(c, w.db, e, t, reply);
    BegunSessions(c, w.db, e, t);
    ApprovalsSame(c, w.db, e, t);
    QrsSame(c, w.db, e, t);
    ActivationsSame(c, w.db, e, t);
    UsersSame(w.db, e, t);
  }

  lemma RegisterRows(c: Config, s: State, e: Event, t: State, reply: Reply)
    requires e.request.RegisterAs? && (t, reply) == Register(c, s, e.ctx, e.request.user, e.mint.id, e.mint.refresh)
    ensures t == s.(sessions := t.sessions, users := t.users) && (!reply.Refused? <==> Begins(s, e))
    ensures t.sessions == if Begins(s, e) then s.sessions[e.mint.id := NewSession(c, s, e)] else s.sessions
    ensures UsersSay(s, e, t)
  {
    hide IsGoodCode, TakesUp;
  }

  lemma RegisterSays(c: Config, w: World, e: Event, t: State, reply: Reply)
    requires FreshMint(w, e.mint) && e.request.RegisterAs?
    requires (t, reply) == Register(c, w.db, e.ctx, e.request.user, e.mint.id, e.mint.refresh)
    ensures Says(c, w.db, e, t, reply)
  {
    hide SessionsSay, ApprovalsSay, QrsSay, ActivationsSay, UsersSay, Register, NewSession, Begins;
    RegisterRows(c, w.db, e, t, reply);
    BegunSessions(c, w.db, e, t);
    ApprovalsSame(c, w.db, e, t);
    QrsSame(c, w.db, e, t);
    ActivationsSame(c, w.db, e, t);
  }

  /** What a request that is about neither codes nor approvals does to a session. */
  predicate IsPlainRequest(r: Request) {
    r.EndSession? || r.NewPassword? || r.Recover? || r.RecoveryLink? || r.FactorReset? || r.FounderRecovery? || r.SignOutOf?
  }

  predicate IsPlainlyEnded(s: State, e: Event, id: Id)
    requires id in s.sessions
  {
    || SignsOut(s, e, id)
    || (s.sessions[id].status == ACTIVE
        && (EndsOther(s, e, id)
            || (Closes(s, e, s.sessions[id].user) && !(e.request.NewPassword? && e.request.claims.value.session == id))))
  }

  lemma PlainSessions(c: Config, s: State, e: Event, t: State)
    requires IsPlainRequest(e.request) && t.sessions.Keys == s.sessions.Keys
    requires forall id :: id in s.sessions ==>
               t.sessions[id] == if IsPlainlyEnded(s, e, id) then Revoked(s.sessions[id]) else s.sessions[id]
    ensures SessionsSay(c, s, e, t)
  {
    hide SessionAfter, SignsOut, EndsOther, Closes;
    forall id | id in s.sessions ensures t.sessions[id] == SessionAfter(c, s, e, id) {
      PlainSession(c, s, e, id);
    }
  }

  /** What cancels a claim when the request is not about devices. */
  predicate IsPlainlyCancelled(s: State, e: Event, row: Activation) {
    && row.status == Live
    && (Closes(s, e, row.user) || (SignsOut(s, e, row.session) && e.request.claims.value.user == row.user))
  }

  lemma PlainActivation(s: State, e: Event, v: Id)
    requires v in s.activations && IsPlainRequest(e.request)
    ensures ActivationAfter(s, e, v)
         == if IsPlainlyCancelled(s, e, s.activations[v]) then s.activations[v].(status := Cancelled) else s.activations[v]
  {
    hide IsCaller, IsTrusted;
  }

  lemma PlainActivations(c: Config, s: State, e: Event, t: State)
    requires IsPlainRequest(e.request) && t.activations.Keys == s.activations.Keys
    requires forall v :: v in s.activations ==>
               t.activations[v] == if IsPlainlyCancelled(s, e, s.activations[v]) then s.activations[v].(status := Cancelled)
                                   else s.activations[v]
    ensures ActivationsSay(c, s, e, t)
  {
    hide ActivationAfter, SignsOut, Closes;
    forall v | v in s.activations ensures t.activations[v] == ActivationAfter(s, e, v) {
      PlainActivation(s, e, v);
    }
  }

  lemma EndOtherRows(s: State, e: Event, t: State, reply: Reply)
    requires e.request.EndSession? && (t, reply) == RevokeSession(s, e.ctx, e.request.claims, e.request.target)
    ensures t == s.(sessions := t.sessions) && t.sessions.Keys == s.sessions.Keys
    ensures !reply.Refused? <==> EndsOther(s, e, e.request.target)
    ensures forall id :: id in s.sessions ==>
              t.sessions[id] == if s.sessions[id].status == ACTIVE && EndsOther(s, e, id) then Revoked(s.sessions[id]) else s.sessions[id]
  {
    AdmitsExactly(s, e.ctx, e.request.claims, true, {OFFICE});
    hide Authenticate, IsCaller;
  }

  lemma EndOtherSays(c: Config, s: State, e: Event, t: State, reply: Reply)
    requires e.request.EndSession? && (t, reply) == RevokeSession(s, e.ctx, e.request.claims, e.request.target)
    ensures Says(c, s, e, t, reply)
  {
    hide SessionsSay, ApprovalsSay, QrsSay, ActivationsSay, UsersSay, RevokeSession, EndsOther;
    EndOtherRows(s, e, t, reply);
    PlainSessions(c, s, e, t);
    ApprovalsSame(c, s, e, t);
    QrsSame(c, s, e, t);
    ActivationsSame(c, s, e, t);
    UsersSame(s, e, t);
  }

  /** Sign-out: the caller's session, and the live claims made from it. */
  lemma SignOutRows(s: State, e: Event, t: State, reply: Reply)
    requires e.request.SignOutOf? && (t, reply) == SignOut(s, e.ctx, e.request.claims)
    ensures t == s.(sessions := t.sessions, activations := t.activations)
    ensures t.sessions.Keys == s.sessions.Keys && t.activations.Keys == s.activations.Keys
    ensures !reply.Refused? <==> e.request.claims.Some? && SignsOut(s, e, e.request.claims.value.session)
    ensures forall id :: id in s.sessions ==>
              t.sessions[id] == if SignsOut(s, e, id) then Revoked(s.sessions[id]) else s.sessions[id]
    ensures forall v :: v in s.activations ==>
              t.activations[v] == if IsPlainlyCancelled(s, e, s.activations[v]) then s.activations[v].(status := Cancelled)
                                  else s.activations[v]
  {
    AdmitsExactly(s, e.ctx, e.request.claims, false, {OFFICE, AUTHENTICATOR_ACTIVATION});
    hide Authenticate, IsCaller;
  }

  lemma SignOutSays(c: Config, s: State, e: Event, t: State, reply: Reply)
    requires e.request.SignOutOf? && (t, reply) == SignOut(s, e.ctx, e.request.claims)
    ensures Says(c, s, e, t, reply)
  {
    hide SessionsSay, ApprovalsSay, QrsSay, ActivationsSay, UsersSay, SignOut, SignsOut;
    SignOutRows(s, e, t, reply);
    PlainSessions(c, s, e, t);
    PlainActivations(c, s, e, t);
    ApprovalsSame(c, s, e, t);
    QrsSame(c, s, e, t);
    UsersSame(s, e, t);
  }

  // Requests that end a user's sessions and live claims.

  predicate IsClosing(r: Request) {
    r.NewPassword? || r.Recover? || r.RecoveryLink? || r.FactorReset? || r.FounderRecovery?
  }

  /** The account such a request is about, when it is let through. */
  function Closed(s: State, e: Event): Option<Id>
    requires IsClosing(e.request)
  {
    match e.request
    case NewPassword(claims, _) => if claims.Some? && Closes(s, e, claims.value.user) then Some(claims.value.user) else None
    case Recover(user, _) => if Closes(s, e, user) then Some(user) else None
    case RecoveryLink(_, user, _) => if Closes(s, e, user) then Some(user) else None
    case FactorReset(_, user, _) => if Closes(s, e, user) then Some(user) else None
    case FounderRecovery(user, _) => if Closes(s, e, user) then Some(user) else None
  }

  lemma ClosesOne(s: State, e: Event)
    requires IsClosing(e.request)
    ensures forall u :: Closes(s, e, u) <==> Closed(s, e) == Some(u)
    ensures e.request.NewPassword? && Closed(s, e).Some? ==> e.request.claims.Some?
  {
  }

  function Spared(s: State, e: Event): Option<Id> {
    if e.request.NewPassword? && e.request.claims.Some? then Some(e.request.claims.value.session) else None
  }

  lemma ClosedRows(c: Config, s: State, e: Event, t: State)
    requires IsClosing(e.request)
    requires Closed(s, e).None? ==> t.sessions == s.sessions && t.activations == s.activations
    requires Closed(s, e).Some? ==>
               t.sessions == RevokeActive(s.sessions, Closed(s, e).value, Spared(s, e))
               && t.activations == CancelLive(s.activations, Closed(s, e).value, None, None)
    ensures SessionsSay(c, s, e, t) && ActivationsSay(c, s, e, t)
  {
    ClosesOne(s, e);
    hide Closes, Closed;
    PlainSessions(c, s, e, t);
    PlainActivations(c, s, e, t);
  }

  predicate RemovesFactor(r: Request) { r.FactorReset? || r.FounderRecovery? }

  /** What a closing request leaves. */
  ghost predicate Closing(s: State, e: Event, t: State, reply: Reply)
    requires IsClosing(e.request)
  {
    && (!reply.Refused? <==> Closed(s, e).Some?)
    && match Closed(s, e)
       case None => t == s
       case Some(user) =>
         && t.sessions == RevokeActive(s.sessions, user, Spared(s, e)) && t.activations == CancelLive(s.activations, user, None, None)
         && t.users == (if RemovesFactor(e.request) then s.users[user := User(false, None)] else s.users)
         && t == s.(sessions := t.sessions, activations := t.activations, users := t.users, log := t.log)
  }

  lemma NewPasswordRows(s: State, e: Event, t: State, reply: Reply)
    requires e.request.NewPassword? && (t, reply) == ChangePassword(s, e.ctx, e.request.claims, e.request.accepted)
    ensures Closing(s, e, t, reply)
  {
    AdmitsExactly(s, e.ctx, e.request.claims, true, {OFFICE});
    hide RevokeActive, CancelLive, Authenticate;
  }

  lemma DelegatedRows(s: State, e: Event, t: State, reply: Reply)
    requires (e.request.RecoveryLink? && (t, reply) == IssueRecovery(s, e.ctx, e.request.claims, e.request.user, e.request.permitted))
          || (e.request.FactorReset? && (t, reply) == ResetMfa(s, e.ctx, e.request.claims, e.request.user, e.request.permitted))
    ensures Closing(s, e, t, reply)
  {
    AdmitsExactly(s, e.ctx, e.request.claims, true, {OFFICE});
    hide RevokeActive, CancelLive, Authenticate;
  }

  lemma RecoveredRows(s: State, e: Event, t: State, reply: Reply)
    requires (e.request.Recover? && (t, reply) == RecoverPassword(s, e.request.user, e.request.accepted))
          || (e.request.FounderRecovery? && (t, reply) == BreakGlass(s, e.request.user, e.request.keyAccepted))
    ensures Closing(s, e, t, reply)
  {
    hide RevokeActive, CancelLive;
  }

  lemma ClosedUsers(s: State, e: Event, t: State)
    requires IsClosing(e.request)
    requires t.users == match Closed(s, e)
      case Some(user) => if RemovesFactor(e.request) then s.users[user := User(false, None)] else s.users
      case None => s.users
    ensures UsersSay(s, e, t)
  {
    ClosesOne(s, e);
    if Closed(s, e).Some? { ClosedIsUser(s, e); }
    hide Closed, IsGoodCode;
    forall u | u in s.users
      ensures UserAfter(s, e, u) == if RemovesFactor(e.request) && Closes(s, e, u) then User(false, None) else s.users[u]
    {
    }
    hide UserAfter, Closes;
  }

  lemma ClosedIsUser(s: State, e: Event)
    requires IsClosing(e.request) && Closed(s, e).Some?
    ensures Closed(s, e).value in s.users
  {
  }

  lemma ClosingGrants(c: Config, s: State, e: Event)
    requires IsClosing(e.request)
    ensures IsGranted(c, s, e) <==> Closed(s, e).Some?
  {
    hide Closes;
  }

  lemma ClosingSays(c: Config, s: State, e: Event, t: State, reply: Reply)
    requires IsClosing(e.request) && Closing(s, e, t, reply)
    ensures Says(c, s, e, t, reply)
  {
    hide SessionsSay, ApprovalsSay, QrsSay, ActivationsSay, UsersSay, RevokeActive, CancelLive;
    ClosingGrants(c, s, e);
    hide Closed, IsGranted, Closes;
    ClosedRows(c, s, e, t);
    ClosedUsers(s, e, t);
    ApprovalsSame(c, s, e, t);
    QrsSame(c, s, e, t);
  }

  // ---------------------------------------------------------------- refresh

  ghost predicate OneHolder(s: State, token: Token) {
    forall i, j :: HoldsRefresh(s, token, i) && HoldsRefresh(s, token, j) ==> i == j
  }

  lemma RefreshRows(s: State, e: Event, t: State, reply: Reply)
    requires e.request.RefreshWith? && OneHolder(s, e.request.proof) && (t, reply) == Refresh(s, e.ctx, e.request.proof, e.mint.refresh)
    ensures t == s.(sessions := t.sessions, log := t.log) && t.sessions.Keys == s.sessions.Keys
    ensures !reply.Refused? <==> exists id :: id in s.sessions && IsRotated(s, e, id)
    ensures forall id :: id in s.sessions ==>
              t.sessions[id] == s.sessions[id].(refreshHash := if IsRotated(s, e, id) then Sha256(e.mint.refresh) else s.sessions[id].refreshHash)
  {
    hide Completes, CompletesAgain;
    if id :| HoldsRefresh(s, e.request.proof, id) {
      assert forall j :: j in s.sessions && IsRotated(s, e, j) ==> HoldsRefresh(s, e.request.proof, j);
      assert id in s.sessions && (IsRotated(s, e, id) <==> !reply.Refused?);
    } else {
      assert forall j :: j in s.sessions && IsRotated(s, e, j) ==> HoldsRefresh(s, e.request.proof, j);
    }
  }

  lemma RefreshSessions(c: Config, s: State, e: Event, t: State)
    requires e.request.RefreshWith? && t.sessions.Keys == s.sessions.Keys
    requires forall id :: id in s.sessions ==>
               t.sessions[id] == s.sessions[id].(refreshHash := if IsRotated(s, e, id) then Sha256(e.mint.refresh) else s.sessions[id].refreshHash)
    ensures SessionsSay(c, s, e, t)
  {
    hide SessionAfter, IsRotated;
    forall id | id in s.sessions ensures t.sessions[id] == SessionAfter(c, s, e, id) { RefreshedSession(c, s, e, id); }
  }

  lemma RefreshSays(c: Config, s: State, e: Event, t: State, reply: Reply)
    requires e.request.RefreshWith? && OneHolder(s, e.request.proof) && (t, reply) == Refresh(s, e.ctx, e.request.proof, e.mint.refresh)
    ensures Says(c, s, e, t, reply)
  {
    hide SessionsSay, ApprovalsSay, QrsSay, ActivationsSay, UsersSay, Refresh, IsRotated, OneHolder;
    RefreshRows(s, e, t, reply);
    RefreshSessions(c, s, e, t);
    ApprovalsSame(c, s, e, t);
    QrsSame(c, s, e, t);
    ActivationsSame(c, s, e, t);
    UsersSame(s, e, t);
  }

  lemma RefreshedSession(c: Config, s: State, e: Event, id: Id)
    requires id in s.sessions && e.request.RefreshWith?
    ensures SessionAfter(c, s, e, id)
         == s.sessions[id].(refreshHash := if IsRotated(s, e, id) then Sha256(e.mint.refresh) else s.sessions[id].refreshHash)
  {
    hide IsRotated, IsCaller, IsTrusted;
  }
}
