/** Things that happen at most once: a TOTP step, a factor rotation, a refresh token. */
module IdentityOnce {
  import opened IdentityModel
  import opened IdentityInvariants
  import opened IdentityProtocol
  import opened IdentitySafety
  import opened IdentityHistory
  import opened IdentityFollow

  // --------------------------------------------------- the counter column

  predicate ClearsFactor(f: Fact, user: Id) { (f.FactorRotated? || f.FactorRemoved?) && f.user == user }

  predicate AcceptsStep(f: Fact, user: Id) { f.TotpAccepted? && f.user == user }

  /** The last counter accepted since the factor was last rotated or removed. */
  function LastAccepted(log: seq<Fact>, user: Id): Option<nat> {
    if |log| == 0 then None
    else Advance(LastAccepted(log[..|log| - 1], user), log[|log| - 1], user)
  }

  function Advance(last: Option<nat>, f: Fact, user: Id): Option<nat> {
    if AcceptsStep(f, user) then Some(f.counter) else if ClearsFactor(f, user) then None else last
  }

  lemma LastAcceptedSnoc(log: seq<Fact>, f: Fact, user: Id)
    ensures LastAccepted(log + [f], user) == Advance(LastAccepted(log, user), f, user)
  {
    assert (log + [f])[..|log|] == log;
  }

  function CounterOf(users: map<Id, User>, user: Id): Option<nat> {
    if user in users then users[user].lastCounter else None
  }

  /** `mfa_last_accepted_counter` is what the log says it is. */
  ghost predicate CountersMatch(s: State) {
    forall u :: LastAccepted(s.log, u) == CounterOf(s.users, u)
  }

  /** The users table after a step, given the fact it wrote (if any). */
  ghost predicate UsersFollow(s: State, t: State) {
    if t.log == s.log then
      forall u :: CounterOf(t.users, u) == CounterOf(s.users, u)
    else
      |t.log| > 0 && t.log == s.log + [t.log[|t.log| - 1]] &&
      forall u :: CounterOf(t.users, u) == Advance(CounterOf(s.users, u), t.log[|t.log| - 1], u)
  }

  lemma SameUsers(c: Config, s: State, e: Event)
    requires LogsWell(c, s, e, Step(c, s, e).0) && Step(c, s, e).0.users == s.users
    requires !e.request.Totp? && !e.request.Claim? && !e.request.FactorReset? && !e.request.FounderRecovery?
    ensures UsersFollow(s, Step(c, s, e).0)
  {
    hide Step;
    var t := Step(c, s, e).0;
    if t.log != s.log {
      var f :| t.log == s.log + [f] && Meaning(c, s, e, f);
      assert t.log[|t.log| - 1] == f;
    }
  }

  lemma TotpUsers(
    c: Config, s: State, x: Ctx, claims: Option<Claims>, matched: Option<nat>, device: DeviceClaim, mail: Mail,
    approval: Id, deviceToken: Token, ownerToken: Token)
    ensures UsersFollow(s, VerifyMfa(c, s, x, claims, matched, device, mail, approval, deviceToken, ownerToken).0)
  {
    hide Authenticate, AdmitBrowser;
    if Authenticate(s, x, claims, false, {OFFICE}).None? {
      Admitted(s, x, claims, false, {OFFICE});
    }
  }

  lemma ClaimUsers(s: State, x: Ctx, activation: Id, proof: Token)
    ensures UsersFollow(s, ClaimActivation(s, x, activation, proof).0)
  {
    hide ActivationStillBound, MayLogIn;
  }

  lemma ResetUsers(s: State, x: Ctx, claims: Option<Claims>, user: Id, flag: bool)
    ensures UsersFollow(s, ResetMfa(s, x, claims, user, flag).0)
    ensures UsersFollow(s, BreakGlass(s, user, flag).0)
  {
    hide Authenticate, RevokeActive, CancelLive;
  }

  lemma RegisterUsers(c: Config, s: State, x: Ctx, user: Id, session: Id, refresh: Token)
    ensures UsersFollow(s, Register(c, s, x, user, session, refresh).0)
  {
  }

  lemma StepUsers(c: Config, s: State, e: Event)
    ensures UsersFollow(s, Step(c, s, e).0)
  {
    hide LogsWell, UsersFollow, SignIn, Register, VerifyEmailOtp, CreateQr, ReadQr, CancelQr, ScanQr, DecideQr;
    hide CompleteQr;
    hide RequestActivation, ClaimActivation, RevokeSession, ChangePassword, RecoverPassword, IssueRecovery, ResetMfa;
    hide BreakGlass;
    hide Refresh, SignOut, VerifyMfa, ReviewDevice, DecideDevice, ReadDevice, RevokeDevice, CompleteDevice;
    StepLogs(c, s, e);
    match e.request
    case Totp(claims, matched, device, mail) =>
      TotpUsers(c, s, e.ctx, claims, matched, device, mail, e.mint.approval, e.mint.first, e.mint.second);
    case Claim(activation, proof) => ClaimUsers(s, e.ctx, activation, proof);
    case FactorReset(claims, user, permitted) => ResetUsers(s, e.ctx, claims, user, permitted);
    case FounderRecovery(user, keyAccepted) => ResetUsers(s, e.ctx, None, user, keyAccepted);
    case RegisterAs(user) => RegisterUsers(c, s, e.ctx, user, e.mint.id, e.mint.refresh);
    case _ => SameUsers(c, s, e);
  }

  lemma CountersStep(c: Config, s: State, e: Event)
    requires CountersMatch(s)
    ensures CountersMatch(Step(c, s, e).0)
  {
    hide Step;
    StepUsers(c, s, e);
    var t := Step(c, s, e).0;
    if t.log != s.log {
      forall u
        ensures LastAccepted(t.log, u) == CounterOf(t.users, u)
      {
        LastAcceptedSnoc(s.log, t.log[|t.log| - 1], u);
      }
    }
  }

  /** Each accepted step is later than the last one accepted before it. */
  ghost predicate Rising(log: seq<Fact>) {
    forall i :: 0 <= i < |log| && log[i].TotpAccepted? ==> RisesAt(log, i)
  }

  predicate RisesAt(log: seq<Fact>, i: nat)
    requires i < |log| && log[i].TotpAccepted?
  {
    var last := LastAccepted(log[..i], log[i].user);
    last.Some? ==> last.value < log[i].counter
  }

  lemma RisingStep(c: Config, s: State, e: Event)
    requires CountersMatch(s) && Rising(s.log)
    ensures Rising(Step(c, s, e).0.log)
  {
    hide Step, LastAccepted;
    StepLogs(c, s, e);
    var t := Step(c, s, e).0;
    if t.log != s.log {
      var f :| t.log == s.log + [f] && Meaning(c, s, e, f);
      forall i | 0 <= i < |t.log| && t.log[i].TotpAccepted?
        ensures RisesAt(t.log, i)
      {
        if i < |s.log| {
          assert t.log[..i] == s.log[..i];
          assert RisesAt(s.log, i);
        } else {
          assert t.log[..i] == s.log;
          assert LastAccepted(s.log, f.user) == CounterOf(s.users, f.user);
        }
      }
    }
  }

  // --------------------------------------------------------- activations

  /** Every rotation in the log used up its own activation, and no two the same. */
  ghost predicate RotationsMatch(log: seq<Fact>, activations: Activations) {
    && (forall k :: 0 <= k < |log| && log[k].FactorRotated? ==>
          log[k].activation in activations && activations[log[k].activation].status == Claimed)
    && (forall k, l :: 0 <= k < l < |log| && log[k].FactorRotated? && log[l].FactorRotated? ==>
          log[k].activation != log[l].activation)
  }

  lemma ClaimUsesUp(c: Config, s: State, e: Event)
    requires e.request.Claim? && Step(c, s, e).0.log != s.log
    ensures var v := e.request.activation;
            v in Step(c, s, e).0.activations && Step(c, s, e).0.activations[v].status == Claimed
  {
    hide ActivationStillBound, MayLogIn;
  }

  lemma RotationsStep(c: Config, s: State, e: Event)
    requires RotationsMatch(s.log, s.activations)
    requires ActivationsSettle(s.activations, Step(c, s, e).0.activations)
    ensures RotationsMatch(Step(c, s, e).0.log, Step(c, s, e).0.activations)
  {
    hide Step;
    StepLogs(c, s, e);
    var t := Step(c, s, e).0;
    if t.log != s.log {
      var f :| t.log == s.log + [f] && Meaning(c, s, e, f);
      if f.FactorRotated? {
        ClaimUsesUp(c, s, e);
      }
    }
  }

  // ------------------------------------------------------ refresh tokens

  /** Every stored token was drawn, no two sessions share one, and an accepted one is gone for good. */
  ghost predicate TokensMatch(s: State, minted: set<Token>) {
    && (forall i :: i in s.sessions ==> s.sessions[i].refreshHash.token in minted)
    && (forall i, j :: i in s.sessions && j in s.sessions && s.sessions[i].refreshHash == s.sessions[j].refreshHash ==> i == j)
    && (forall k :: 0 <= k < |s.log| && s.log[k].RefreshAccepted? ==> Gone(s, minted, s.log[k].token))
    && (forall k, l :: 0 <= k < l < |s.log| && s.log[k].RefreshAccepted? && s.log[l].RefreshAccepted? ==>
          s.log[k].token != s.log[l].token)
  }

  ghost predicate Gone(s: State, minted: set<Token>, token: Token) {
    token in minted && forall i :: i in s.sessions ==> s.sessions[i].refreshHash != Sha256(token)
  }

  lemma StoredTokens(sessions: Sessions, later: Sessions, minted: set<Token>, more: set<Token>, drawn: Token)
    requires forall i :: i in sessions ==> sessions[i].refreshHash.token in minted
    requires forall i, j :: i in sessions && j in sessions && sessions[i].refreshHash == sessions[j].refreshHash ==> i == j
    requires drawn !in minted && drawn in more
    requires exists to :: TokensFollow(sessions, later, drawn, to)
    ensures forall i :: i in later ==> later[i].refreshHash.token in minted + more
    ensures forall i, j :: i in later && j in later && later[i].refreshHash == later[j].refreshHash ==> i == j
  {
    var to :| TokensFollow(sessions, later, drawn, to);
    forall i, j | i in later && j in later && later[i].refreshHash == later[j].refreshHash
      ensures i == j
    {
      if to != Some(i) {
        assert sessions[i].refreshHash.token in minted;
      }
      if to != Some(j) {
        assert sessions[j].refreshHash.token in minted;
      }
    }
  }

  lemma GoneStays(s: State, t: State, minted: set<Token>, more: set<Token>, drawn: Token, token: Token)
    requires Gone(s, minted, token) && drawn !in minted
    requires exists to :: TokensFollow(s.sessions, t.sessions, drawn, to)
    ensures Gone(t, minted + more, token)
  {
    var to :| TokensFollow(s.sessions, t.sessions, drawn, to);
    forall i | i in t.sessions
      ensures t.sessions[i].refreshHash != Sha256(token)
    {
      if to != Some(i) {
        assert s.sessions[i].refreshHash != Sha256(token);
      }
    }
  }

  /** An accepted token is replaced on the one session that held it. */
  lemma AcceptedIsGone(c: Config, s: State, e: Event, minted: set<Token>)
    requires e.request.RefreshWith? && Step(c, s, e).0.log != s.log
    requires forall i, j :: i in s.sessions && j in s.sessions && s.sessions[i].refreshHash == s.sessions[j].refreshHash ==> i == j
    requires forall i :: i in s.sessions ==> s.sessions[i].refreshHash.token in minted
    requires e.mint.refresh !in minted
    ensures Gone(Step(c, s, e).0, minted, e.request.proof)
  {
    var t := Step(c, s, e).0;
    var token := e.request.proof;
    assert exists id :: HoldsRefresh(s, token, id);
    forall id | HoldsRefresh(s, token, id)
      ensures t.sessions == s.sessions[id := s.sessions[id].(refreshHash := Sha256(e.mint.refresh))]
      ensures token in minted
    {
      assert forall other :: HoldsRefresh(s, token, other) ==> other == id;
    }
  }

  lemma TokensStep(c: Config, s: State, e: Event, minted: set<Token>, more: set<Token>)
    requires TokensMatch(s, minted)
    requires e.mint.refresh !in minted && e.mint.refresh in more
    requires exists to :: TokensFollow(s.sessions, Step(c, s, e).0.sessions, e.mint.refresh, to)
    ensures TokensMatch(Step(c, s, e).0, minted + more)
  {
    hide Step, TokensFollow, Gone;
    StepLogs(c, s, e);
    var t := Step(c, s, e).0;
    StoredTokens(s.sessions, t.sessions, minted, more, e.mint.refresh);
    forall k | 0 <= k < |s.log| && s.log[k].RefreshAccepted?
      ensures Gone(t, minted + more, s.log[k].token)
    {
      GoneStays(s, t, minted, more, e.mint.refresh, s.log[k].token);
    }
    if t.log != s.log {
      var f :| t.log == s.log + [f] && Meaning(c, s, e, f);
      if f.RefreshAccepted? {
        AcceptedIsGone(c, s, e, minted);
        GoneWiden(t, minted, more, f.token);
        forall k | 0 <= k < |s.log| && s.log[k].RefreshAccepted?
          ensures s.log[k].token != f.token
        {
          HeldIsNotGone(s, minted, f.token, f.session);
        }
      }
    }
  }

  lemma GoneWiden(s: State, minted: set<Token>, more: set<Token>, token: Token)
    requires Gone(s, minted, token)
    ensures Gone(s, minted + more, token)
  {
  }

  lemma HeldIsNotGone(s: State, minted: set<Token>, token: Token, session: Id)
    requires HoldsRefresh(s, token, session)
    ensures !Gone(s, minted, token)
  {
  }

  // -------------------------------------------------------------- over runs

  lemma StepFollows(c: Config, w: World, e: Event)
    requires FreshMint(w, e.mint)
    ensures Follows(w.db, Step(c, w.db, e).0, e.mint.refresh)
  {
    hide Follows, SignIn, Register, VerifyEmailOtp, CreateQr, ReadQr, CancelQr, ScanQr, DecideQr, CompleteQr;
    hide RequestActivation, ClaimActivation, RevokeSession, ChangePassword, RecoverPassword, IssueRecovery, ResetMfa;
    hide BreakGlass;
    hide Refresh, SignOut, VerifyMfa, ReviewDevice, DecideDevice, ReadDevice, RevokeDevice, CompleteDevice;
    var Event(x, m, request) := e;
    var s, drawn := w.db, m.refresh;
    match request
    case SignInWith(user, accepted) => SignInFollows(c, s, x, user, accepted, m.id, drawn);
    case RegisterAs(user) => SignInFollows(c, s, x, user, true, m.id, drawn);
    case VerifyEmailCode(user, reviewer, device, mail) =>
      VerifyEmailOtpFollows(c, s, x, user, reviewer, device, mail, m.id, drawn, m.approval, m.first, m.second);
    case StartQr(claims) => CreateQrFollows(c, s, x, claims, m.id, m.first, m.second, drawn);
    case QrStatusOf(qr, proof) => ReadQrFollows(s, x, qr, proof, drawn);
    case QrCancel(qr, proof) => ReadQrFollows(s, x, qr, proof, drawn);
    case QrScan(claims, device, qr, proof) => ScanQrFollows(s, x, claims, device, qr, proof, drawn);
    case QrDecide(claims, device, qr, approve) => DecideQrFollows(s, x, claims, device, qr, approve, drawn);
    case QrComplete(qr, proof) => CompleteQrFollows(s, x, qr, proof, drawn);
    case AskActivation(claims) => RequestActivationFollows(c, s, x, claims, m.id, m.first, drawn);
    case Claim(activation, proof) => ClaimFollows(s, x, activation, proof, drawn);
    case EndSession(claims, target) => RevokeSessionFollows(s, x, claims, target, drawn);
    case NewPassword(claims, accepted) => ChangePasswordFollows(s, x, claims, accepted, drawn);
    case Recover(user, accepted) => AccountFollows(s, x, None, user, accepted, drawn);
    case RecoveryLink(claims, user, permitted) => AccountFollows(s, x, claims, user, permitted, drawn);
    case FactorReset(claims, user, permitted) => AccountFollows(s, x, claims, user, permitted, drawn);
    case FounderRecovery(user, keyAccepted) => AccountFollows(s, x, None, user, keyAccepted, drawn);
    case RefreshWith(proof) => RefreshFollows(s, x, proof, drawn);
    case SignOutOf(claims) => SignOutFollows(s, x, claims, drawn);
    case Totp(claims, matched, device, mail) =>
      VerifyMfaFollows(c, s, x, claims, matched, device, mail, m.approval, m.first, m.second, drawn);
    case DeviceReview(approval, proof) => ReadDeviceFollows(s, x, approval, proof, drawn);
    case DeviceDecide(approval, proof, approve) => DecideDeviceFollows(s, x, approval, proof, approve, drawn);
    case DeviceStatusOf(approval, proof) => ReadDeviceFollows(s, x, approval, proof, drawn);
    case DeviceRevoke(claims, approval, proof) => RevokeDeviceFollows(s, x, claims, approval, proof, drawn);
    case DeviceComplete(approval, proof) => CompleteDeviceFollows(c, s, x, approval, proof, drawn);
  }

  ghost predicate Once(w: World) {
    && CountersMatch(w.db) && Rising(w.db.log)
    && RotationsMatch(w.db.log, w.db.activations)
    && TokensMatch(w.db, w.minted)
  }

  lemma OnceStep(c: Config, w: World, e: Event)
    requires Once(w) && FreshMint(w, e.mint)
    ensures Once(Next(c, w, e))
  {
    hide Step, CountersMatch, Rising, RotationsMatch, TokensMatch, ActivationsSettle, TokensFollow;
    StepFollows(c, w, e);
    CountersStep(c, w.db, e);
    RisingStep(c, w.db, e);
    RotationsStep(c, w.db, e);
    TokensStep(c, w.db, e, w.minted, {e.mint.refresh, e.mint.first, e.mint.second});
  }

  lemma {:induction false} RunOnce(c: Config, worlds: seq<World>, events: seq<Event>, n: nat)
    requires IsRun(c, worlds, events) && n <= |events|
    ensures |worlds| == |events| + 1 && Once(worlds[n])
  {
    hide Step, IsRun;
    RunStart(c, worlds, events);
    if n > 0 {
      hide Next, Once;
      RunOnce(c, worlds, events, n - 1);
      RunStep(c, worlds, events, n - 1);
      OnceStep(c, worlds[n - 1], events[n - 1]);
    }
  }
}
