/** The row view along runs, and the count of wrong codes. */
module IdentityFailures {
  import opened IdentityModel
  import opened IdentityInvariants
  import opened IdentityProtocol
  import opened IdentitySafety
  import opened IdentityOnce
  import opened IdentityView
  import opened IdentityViewAccounts
  import opened IdentityViewDevices
  import opened IdentityViewProof

  lemma OneHolds(s: State, minted: set<Token>, token: Token)
    requires TokensMatch(s, minted)
    ensures OneHolder(s, token)
  {
  }

  lemma InvHasOne(c: Config, w: World)
    requires Inv(c, w.db, w.clock)
    ensures OneTrusted(w.db.approvals)
  {
    hide ApprovalsLinked, ActivationsLinked, QrsLinked, SessionsLegal, LiveBound, OneTrusted;
    hide OneApprovalPerSession, TrustHasTerm, OneLive, OneQr;
  }

  /** In every run each request is granted, and moves each row, as the row view says. */
  lemma RunSays(c: Config, worlds: seq<World>, events: seq<Event>, n: nat)
    requires IsRun(c, worlds, events) && n < |events|
    ensures |worlds| == |events| + 1 && FreshMint(worlds[n], events[n].mint)
    ensures Says(c, worlds[n].db, events[n], worlds[n + 1].db, Step(c, worlds[n].db, events[n]).1)
  {
    RunStep(c, worlds, events, n);
    RunKeeps(c, worlds, events, n);
    RunOnce(c, worlds, events, n);
    var w, e := worlds[n], events[n];
    hide IsRun, Step, Inv, Says, OneTrusted, OneHolder, CountersMatch, Rising, RotationsMatch, TokensMatch, FreshMint;
    InvHasOne(c, w);
    if e.request.RefreshWith? { OneHolds(w.db, w.minted, e.request.proof); }
    StepSays(c, w, e);
  }

  // ------------------------------------------------------------ wrong codes

  /** How many wrong codes were given for the session before step `n`. */
  ghost function WrongCodes(worlds: seq<World>, events: seq<Event>, n: nat, session: Id): nat
    requires n <= |events| && n <= |worlds|
  {
    if n == 0 then 0
    else WrongCodes(worlds, events, n - 1, session) + if IsWrongCode(worlds[n - 1].db, events[n - 1], session) then 1 else 0
  }

  /** A wrong code is given for an ACTIVE session at aal1, counts, and at the limit ends it. */
  lemma WrongCodeMoves(c: Config, s: State, e: Event, session: Id)
    requires IsWrongCode(s, e, session)
    ensures session in s.sessions && s.sessions[session].status == ACTIVE && s.sessions[session].aal == AAL1
    ensures SessionAfter(c, s, e, session)
         == s.sessions[session].(failed := s.sessions[session].failed + 1,
                                 status := if s.sessions[session].failed + 1 >= c.mfaMaxFailed then REVOKED else ACTIVE)
  {
    CodeMoves(c, s, e, session);
    hide SessionAfter;
  }

  /** A session that stays at aal1 keeps its count at any other request. */
  lemma OthersKeepCount(c: Config, s: State, e: Event, session: Id)
    requires session in s.sessions && !IsWrongCode(s, e, session) && SessionAfter(c, s, e, session).aal == AAL1
    ensures s.sessions[session].aal == AAL1 && SessionAfter(c, s, e, session).failed == s.sessions[session].failed
  {
    hide IsEnded, IsHeld, IsPromoted, IsRotated, IsGoodCode, IsWrongCode;
  }

  lemma NewSessionCount(c: Config, s: State, e: Event)
    requires Begins(s, e)
    ensures NewSession(c, s, e).failed == 0
  {
  }

  lemma {:induction false} NoCodesBefore(c: Config, worlds: seq<World>, events: seq<Event>, n: nat, session: Id)
    requires IsRun(c, worlds, events) && n <= |events| && |worlds| == |events| + 1 && session !in worlds[n].db.sessions
    ensures WrongCodes(worlds, events, n, session) == 0
  {
    hide IsRun, IsWrongCode;
    if n > 0 {
      RunEvolves(c, worlds, events, n - 1, n);
      NoCodesBefore(c, worlds, events, n - 1, session);
      if IsWrongCode(worlds[n - 1].db, events[n - 1], session) {
        WrongCodeMoves(c, worlds[n - 1].db, events[n - 1], session);
      }
    }
  }

  /** In every run the count of a session at aal1 is the number of wrong codes given for it:
      codes that matched no step, of admitted requests of an enrolled user. */
  lemma {:induction false} FailedCountsWrongCodes(c: Config, worlds: seq<World>, events: seq<Event>, n: nat, session: Id)
    requires IsRun(c, worlds, events) && n <= |events| && |worlds| == |events| + 1
    requires session in worlds[n].db.sessions && worlds[n].db.sessions[session].aal == AAL1
    ensures worlds[n].db.sessions[session].failed == WrongCodes(worlds, events, n, session)
  {
    RunStart(c, worlds, events);
    hide IsRun, IsWrongCode, SessionAfter, Begins, NewSession, ApprovalsSay, QrsSay, ActivationsSay, UsersSay, IsGranted, Step;
    if n > 0 {
      RunSays(c, worlds, events, n - 1);
      var s, e := worlds[n - 1].db, events[n - 1];
      if session in s.sessions {
        if IsWrongCode(s, e, session) {
          WrongCodeMoves(c, s, e, session);
        } else {
          OthersKeepCount(c, s, e, session);
        }
        FailedCountsWrongCodes(c, worlds, events, n - 1, session);
      } else {
        NewSessionCount(c, s, e);
        NoCodesBefore(c, worlds, events, n - 1, session);
        if IsWrongCode(s, e, session) { WrongCodeMoves(c, s, e, session); }
      }
    }
  }

  /** In every run at most the maximum of wrong codes is ever taken for a session, and the last
      of them leaves it REVOKED at aal1 for good. */
  lemma {:induction false} WrongCodesAreBounded(c: Config, worlds: seq<World>, events: seq<Event>, n: nat, session: Id)
    requires IsRun(c, worlds, events) && n <= |events| && |worlds| == |events| + 1
    ensures WrongCodes(worlds, events, n, session) <= c.mfaMaxFailed
    ensures WrongCodes(worlds, events, n, session) == c.mfaMaxFailed ==>
              && session in worlds[n].db.sessions
              && worlds[n].db.sessions[session].status == REVOKED && worlds[n].db.sessions[session].aal == AAL1
  {
    RunStart(c, worlds, events);
    hide IsRun, IsWrongCode, SessionAfter, Step, Says, SessionsEvolve;
    if n > 0 {
      WrongCodesAreBounded(c, worlds, events, n - 1, session);
      var s, e := worlds[n - 1].db, events[n - 1];
      if IsWrongCode(s, e, session) {
        WrongCodeAnswered(c, worlds, events, n - 1, session);
      } else if WrongCodes(worlds, events, n - 1, session) == c.mfaMaxFailed {
        RunEvolves(c, worlds, events, n - 1, n);
        StaysRevoked(s.sessions, worlds[n].db.sessions, session);
      }
    }
  }

  lemma StaysRevoked(sessions: Sessions, later: Sessions, session: Id)
    requires SessionsEvolve(sessions, later) && session in sessions && sessions[session].status == REVOKED
    ensures session in later && later[session].status == REVOKED && later[session].aal == sessions[session].aal
  {
    assert SessionEvolves(sessions[session], later[session]);
  }

  /** A wrong code is answered 429 and ends the session if it is the last one allowed, and is
      answered 400 and leaves it ACTIVE otherwise. */
  lemma WrongCodeAnswered(c: Config, worlds: seq<World>, events: seq<Event>, n: nat, session: Id)
    requires IsRun(c, worlds, events) && n < |events| && |worlds| == |events| + 1 && IsWrongCode(worlds[n].db, events[n], session)
    ensures WrongCodes(worlds, events, n, session) < c.mfaMaxFailed
    ensures session in worlds[n + 1].db.sessions && worlds[n + 1].db.sessions[session].aal == AAL1
    ensures var last := WrongCodes(worlds, events, n, session) + 1 == c.mfaMaxFailed;
            && Step(c, worlds[n].db, events[n]).1 == Refused(if last then 429 else 400)
            && worlds[n + 1].db.sessions[session].status == (if last then REVOKED else ACTIVE)
  {
    RunStart(c, worlds, events);
    RunSays(c, worlds, events, n);
    var s, e := worlds[n].db, events[n];
    WrongCodeMoves(c, s, e, session);
    hide IsRun, SessionAfter, Begins, NewSession, ApprovalsSay, QrsSay, ActivationsSay, UsersSay, IsGranted;
    FailedCountsWrongCodes(c, worlds, events, n, session);
    RunKeeps(c, worlds, events, n);
    LegalCount(c, worlds[n], session);
    WrongCodeReply(c, s, e, session);
    hide Step, IsWrongCode, Inv;
  }

  lemma LegalCount(c: Config, w: World, session: Id)
    requires Inv(c, w.db, w.clock) && session in w.db.sessions && w.db.sessions[session].status == ACTIVE
    requires w.db.sessions[session].aal == AAL1
    ensures w.db.sessions[session].failed < c.mfaMaxFailed
  {
    hide ApprovalsLinked, ActivationsLinked, QrsLinked, LiveBound, OneTrusted, OneApprovalPerSession, TrustHasTerm, OneLive, OneQr;
    assert SessionLegal(c, w.db.sessions[session]);
  }

  lemma WrongCodeReply(c: Config, s: State, e: Event, session: Id)
    requires IsWrongCode(s, e, session) && session in s.sessions
    ensures Step(c, s, e).1 == Refused(if s.sessions[session].failed + 1 >= c.mfaMaxFailed then 429 else 400)
  {
    AdmitsExactly(s, e.ctx, e.request.claims, false, {OFFICE});
    hide Authenticate;
  }
}
