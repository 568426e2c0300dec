/** The promises of the identity service, for every run. */
module IdentityTheorems {
  import opened IdentityModel
  import opened IdentityInvariants
  import opened IdentitySteps
  import opened IdentityEvidence
  import opened IdentityProtocol
  import opened IdentitySafety
  import opened IdentityHistory
  import opened IdentityFollow
  import opened IdentityOnce

  // -------------------------------------------------- the log along a run

  lemma {:induction false} LogExtends(c: Config, worlds: seq<World>, events: seq<Event>, i: nat, j: nat)
    requires IsRun(c, worlds, events) && i <= j <= |events|
    ensures |worlds| == |events| + 1 && |worlds[j].db.log| <= |worlds[i].db.log| + (j - i)
    ensures worlds[i].db.log <= worlds[j].db.log
    decreases j
  {
    hide Step, IsRun, Meaning;
    RunStart(c, worlds, events);
    if i < j {
      LogExtends(c, worlds, events, i, j - 1);
      RunStep(c, worlds, events, j - 1);
      StepLogs(c, worlds[j - 1].db, events[j - 1]);
    }
  }

  /** Entries in order were written by steps in order. */
  lemma StepsInOrder(c: Config, worlds: seq<World>, events: seq<Event>, n: nat, k: nat, l: nat, i: nat, j: nat)
    requires IsRun(c, worlds, events) && n <= |events| && i < n && j < n && k < l
    requires |worlds| == |events| + 1
    requires |worlds[i].db.log| <= k < |worlds[i + 1].db.log|
    requires |worlds[j].db.log| <= l < |worlds[j + 1].db.log|
    ensures i < j
  {
    hide Step, IsRun;
    if j < i {
      LogExtends(c, worlds, events, j + 1, i);
    } else if i == j {
      LogExtends(c, worlds, events, i, i + 1);
    }
  }

  // ----------------------------------------------------- aal2 is earned

  /** The factor was proved at a step that needed nothing more. */
  predicate IsDirect(f: Fact, session: Id, user: Id, purpose: Purpose) {
    match purpose
    case OFFICE => f.TotpAccepted? && f.session == session && f.user == user && (f.basis == ApprovalOff || f.basis.Known?)
    case AUTHENTICATOR_ACTIVATION => f.EmailVerified? && f.session == session && f.user == user && (f.basis.Known? || f.basis.Reviewer?)
  }

  /** At step `i` the request was served, what it asked was granted, and the audit log got
      this entry: the situation the entry speaks of held before the step, and the log
      grew by just this entry. */
  ghost predicate Happened(c: Config, worlds: seq<World>, events: seq<Event>, i: nat, f: Fact)
    requires i < |events| < |worlds|
  {
    Meaning(c, worlds[i].db, events[i], f) && worlds[i + 1].db.log == worlds[i].db.log + [f]
  }

  ghost predicate EarnedDirectly(
    c: Config, worlds: seq<World>, events: seq<Event>, n: nat, session: Id, user: Id, purpose: Purpose)
    requires n <= |events| < |worlds|
  {
    exists i, f :: 0 <= i < n && IsDirect(f, session, user, purpose) && Happened(c, worlds, events, i, f)
  }

  ghost predicate EarnedByMailbox(
    c: Config, worlds: seq<World>, events: seq<Event>, n: nat, session: Id, user: Id, purpose: Purpose)
    requires n <= |events| < |worlds|
  {
    exists i, j, k, f, a :: 0 <= i < j < k < n
      && IsHeldStart(f, session, user, purpose)
      && Happened(c, worlds, events, i, f)
      && Happened(c, worlds, events, j, MailboxApproved(a, session))
      && Happened(c, worlds, events, k, DeviceCompleted(a, session))
  }

  ghost predicate EarnedByQr(c: Config, worlds: seq<World>, events: seq<Event>, n: nat, session: Id)
    requires n <= |events| < |worlds|
  {
    exists i, j, k, q, d :: 0 <= i < j < k < n
      && Happened(c, worlds, events, i, Scanned(q, session, d))
      && Happened(c, worlds, events, j, Approved(q, session, d))
      && Happened(c, worlds, events, k, Completed(q, session))
  }

  /** Three entries in order give three steps in order, each meaning what it says. */
  lemma ThreeSteps(c: Config, worlds: seq<World>, events: seq<Event>, n: nat, fs: seq<Fact>) returns (i: nat, j: nat,
                                                                                                      k: nat)
    requires IsRun(c, worlds, events) && n <= |events| && |fs| == 3
    requires |worlds| == |events| + 1 && InOrder(worlds[n].db.log, fs)
    ensures i < j < k < n
    ensures Happened(c, worlds, events, i, fs[0]) && Happened(c, worlds, events, j, fs[1])
    ensures Happened(c, worlds, events, k, fs[2])
  {
    hide Step, IsRun, Meaning, InOrder, Happened;
    var at := InOrderPositions(worlds[n].db.log, fs);
    i := EntryHappened(c, worlds, events, n, at[0]);
    j := EntryHappened(c, worlds, events, n, at[1]);
    k := EntryHappened(c, worlds, events, n, at[2]);
    StepsInOrder(c, worlds, events, n, at[0], at[1], i, j);
    StepsInOrder(c, worlds, events, n, at[1], at[2], j, k);
  }

  /** The step that wrote an entry, with what held before it and the log grown by it. */
  lemma EntryHappened(c: Config, worlds: seq<World>, events: seq<Event>, n: nat, k: nat) returns (i: nat)
    requires IsRun(c, worlds, events) && n <= |events| && |worlds| == |events| + 1 && k < |worlds[n].db.log|
    ensures i < n && |worlds[i].db.log| <= k < |worlds[i + 1].db.log|
    ensures Happened(c, worlds, events, i, worlds[n].db.log[k])
  {
    hide Step, IsRun, Meaning;
    i := EntryHasStep(c, worlds, events, n, k);
    LogExtends(c, worlds, events, i, i + 1);
    LogExtends(c, worlds, events, i + 1, n);
    assert worlds[i + 1].db.log[k] == worlds[n].db.log[k];
  }

  lemma OneEntry(c: Config, worlds: seq<World>, events: seq<Event>, n: nat, f: Fact) returns (i: nat)
    requires IsRun(c, worlds, events) && n <= |events|
    requires |worlds| == |events| + 1 && f in worlds[n].db.log
    ensures i < n && Happened(c, worlds, events, i, f)
  {
    hide Step, IsRun, Happened;
    var k :| 0 <= k < |worlds[n].db.log| && worlds[n].db.log[k] == f;
    i := EntryHappened(c, worlds, events, n, k);
  }

  lemma DirectFact(log: seq<Fact>, session: Id, user: Id, purpose: Purpose) returns (f: Fact)
    requires Direct(log, session, user, purpose)
    ensures f in log && IsDirect(f, session, user, purpose)
  {
    match purpose
    case OFFICE =>
      if exists m :: TotpAccepted(session, user, m, ApprovalOff) in log {
        var m :| TotpAccepted(session, user, m, ApprovalOff) in log;
        f := TotpAccepted(session, user, m, ApprovalOff);
      } else {
        var m, d :| TotpAccepted(session, user, m, Known(d)) in log;
        f := TotpAccepted(session, user, m, Known(d));
      }
    case AUTHENTICATOR_ACTIVATION =>
      if exists d :: EmailVerified(session, user, Known(d)) in log {
        var d :| EmailVerified(session, user, Known(d)) in log;
        f := EmailVerified(session, user, Known(d));
      } else {
        var d :| EmailVerified(session, user, Reviewer(d)) in log;
        f := EmailVerified(session, user, Reviewer(d));
      }
  }

  /** In every run, an ACTIVE aal2 session was earned by steps that were granted: its factor
      was accepted with approval switched off or a trusted device's proof; or it was
      accepted, then the mailbox owner approved that session's own request, then it was
      completed; or (Office only) its QR request was scanned and approved by one device
      trusted for the user at both steps, and then completed. */
  lemma Aal2IsEarned(c: Config, worlds: seq<World>, events: seq<Event>, n: nat, session: Id)
    requires IsRun(c, worlds, events) && n <= |events| && |worlds| == |events| + 1
    requires session in worlds[n].db.sessions
    requires worlds[n].db.sessions[session].status == ACTIVE && worlds[n].db.sessions[session].aal == AAL2
    ensures var row := worlds[n].db.sessions[session];
            || EarnedDirectly(c, worlds, events, n, session, row.user, row.purpose)
            || EarnedByMailbox(c, worlds, events, n, session, row.user, row.purpose)
            || (row.purpose == OFFICE && EarnedByQr(c, worlds, events, n, session))
  {
    hide Step, IsRun, Happened, InOrder, Direct;
    Aal2HasEvidence(c, worlds, events, n, session);
    var row, log := worlds[n].db.sessions[session], worlds[n].db.log;
    if Direct(log, session, row.user, row.purpose) {
      var f := DirectFact(log, session, row.user, row.purpose);
      var i := OneEntry(c, worlds, events, n, f);
    } else if ByMailbox(log, session, row.user, row.purpose) {
      var f, a :| IsHeldStart(f, session, row.user, row.purpose)
               && InOrder(log, [f, MailboxApproved(a, session), DeviceCompleted(a, session)]);
      var i, j, k := ThreeSteps(c, worlds, events, n, [f, MailboxApproved(a, session), DeviceCompleted(a, session)]);
    } else {
      var q, d :| InOrder(log, [Scanned(q, session, d), Approved(q, session, d), Completed(q, session)]);
      var i, j, k := ThreeSteps(c, worlds, events, n, [Scanned(q, session, d), Approved(q, session, d), Completed(q, session)]);
    }
  }

  // ------------------------------------------------- devices and activations

  /** One trusted device per user, in every world and also between the revoke flush
      and the promotion inside a completion. */
  lemma OneTrustedDevice(c: Config, worlds: seq<World>, events: seq<Event>, n: nat, user: Id, spare: Id)
    requires IsRun(c, worlds, events) && n <= |events| && |worlds| == |events| + 1
    ensures OneTrusted(worlds[n].db.approvals)
    ensures var mid := ReplaceDevices(worlds[n].db, user, spare, worlds[n].clock);
            OneTrusted(mid.approvals) && NoneTrusted(mid.approvals, user, Some(spare))
  {
    hide Step, IsRun;
    RunKeeps(c, worlds, events, n);
    ReplaceDevicesKeeps(c, worlds[n].db, worlds[n].clock, user, spare);
  }

  /** A user has at most one live activation; it names an ACTIVE aal2 activation session
      and an approval of the same user and session that is trusted, or EXPIRED because its
      trust has lapsed in time. */
  lemma LiveActivationIsBound(c: Config, worlds: seq<World>, events: seq<Event>, n: nat, v: Id)
    requires IsRun(c, worlds, events) && n <= |events| && |worlds| == |events| + 1
    requires v in worlds[n].db.activations && worlds[n].db.activations[v].status == Live
    ensures var s := worlds[n].db;
            var row := s.activations[v];
            && row.session in s.sessions && row.device in s.approvals
            && s.sessions[row.session].user == row.user && s.sessions[row.session].status == ACTIVE
            && s.sessions[row.session].aal == AAL2 && s.sessions[row.session].purpose == AUTHENTICATOR_ACTIVATION
            && s.approvals[row.device].user == row.user && s.approvals[row.device].session == row.session
            && (s.approvals[row.device].status == Trusted
                || (s.approvals[row.device].status == ApprovalExpired && TrustLapsed(s.approvals[row.device], worlds[n].clock)))
            && (forall w :: w in s.activations && s.activations[w].status == Live && s.activations[w].user == row.user ==> w == v)
  {
    hide Step, IsRun;
    RunKeeps(c, worlds, events, n);
    var s := worlds[n].db;
    assert ActivationLinked(s.sessions, s.approvals, s.activations[v]);
    assert Bound(s.sessions, s.approvals, s.activations[v], worlds[n].clock);
  }

  /** In every run the re-check of a claim can fail only by lapse: an unexpired live
      activation, claimed with its token by an eligible user, is refused if and only if
      the trust of its device has lapsed in time. */
  lemma ClaimRecheckIsLapse(c: Config, worlds: seq<World>, events: seq<Event>, n: nat, x: Ctx, v: Id, token: Token)
    requires IsRun(c, worlds, events) && n <= |events| && |worlds| == |events| + 1
    requires v in worlds[n].db.activations && worlds[n].db.activations[v].status == Live
    requires worlds[n].clock <= x.now < worlds[n].db.activations[v].expiresAt
    requires worlds[n].db.activations[v].claimHash == Sha256(token)
    requires worlds[n].db.activations[v].user in worlds[n].db.users && MayLogIn(x)
    ensures var s := worlds[n].db;
            && s.activations[v].device in s.approvals
            && (ClaimActivation(s, x, v, token).1 == Refused(409) <==> TrustLapsed(s.approvals[s.activations[v].device], x.now))
            && (ClaimActivation(s, x, v, token).1 == Accepted <==> !TrustLapsed(s.approvals[s.activations[v].device], x.now))
  {
    hide Step, IsRun;
    RunKeeps(c, worlds, events, n);
    LiveDeviceIsGood(c, worlds[n].db, worlds[n].clock, x.now, v);
  }

  lemma LiveDeviceIsGood(c: Config, s: State, clock: Time, now: Time, v: Id)
    requires Inv(c, s, clock) && clock <= now
    requires v in s.activations && s.activations[v].status == Live
    ensures var row := s.activations[v];
            row.device in s.approvals && (ActivationStillBound(s, row, now) <==> !TrustLapsed(s.approvals[row.device], now))
  {
    assert ActivationLinked(s.sessions, s.approvals, s.activations[v]);
    assert Bound(s.sessions, s.approvals, s.activations[v], clock);
  }

  /** An activation rotates the factor at most once in any run. */
  lemma ActivationRotatesOnce(c: Config, worlds: seq<World>, events: seq<Event>, i: nat, j: nat, v: Id, first: Token,
                              second: Token)
    requires IsRun(c, worlds, events) && i < j < |events| && |worlds| == |events| + 1
    requires events[i].request == Claim(v, first) && events[j].request == Claim(v, second)
    requires Step(c, worlds[i].db, events[i]).1 == Accepted
    ensures Step(c, worlds[j].db, events[j]).1 != Accepted
  {
    hide Step, IsRun, Once;
    ClaimWrites(c, worlds[i].db, events[i]);
    RunStep(c, worlds, events, i);
    LogExtends(c, worlds, events, i + 1, j);
    RunOnce(c, worlds, events, j);
    var k := |worlds[i].db.log|;
    assert worlds[j].db.log[k].FactorRotated? && worlds[j].db.log[k].activation == v;
    ClaimedMeansRefused(c, worlds[j], events[j], k);
  }

  lemma ClaimWrites(c: Config, s: State, e: Event)
    requires e.request.Claim? && Step(c, s, e).1 == Accepted
    ensures var t := Step(c, s, e).0;
            |t.log| == |s.log| + 1 && t.log[|s.log|].FactorRotated? && t.log[|s.log|].activation == e.request.activation
  {
    hide ActivationStillBound, MayLogIn;
  }

  lemma ClaimedMeansRefused(c: Config, w: World, e: Event, k: nat)
    requires Once(w) && k < |w.db.log| && w.db.log[k].FactorRotated?
    requires e.request.Claim? && e.request.activation == w.db.log[k].activation
    ensures Step(c, w.db, e).1 != Accepted
  {
    hide ActivationStillBound, MayLogIn, CountersMatch, Rising, TokensMatch;
  }

  // --------------------------------------------------------- the TOTP steps

  predicate Cleared(log: seq<Fact>, user: Id, k: nat, l: nat)
    requires k <= l <= |log|
  {
    exists m | k <= m < l :: ClearsFactor(log[m], user)
  }

  lemma {:induction false} AcceptedStays(log: seq<Fact>, user: Id, k: nat, l: nat)
    requires Rising(log) && k < l <= |log| && AcceptsStep(log[k], user) && !Cleared(log, user, k, l)
    ensures var last := LastAccepted(log[..l], user);
            last.Some? && last.value >= log[k].counter
    decreases l
  {
    assert log[..l] == log[..l - 1] + [log[l - 1]];
    LastAcceptedSnoc(log[..l - 1], log[l - 1], user);
    if l - 1 > k {
      assert !Cleared(log, user, k, l - 1);
      AcceptedStays(log, user, k, l - 1);
      assert !ClearsFactor(log[l - 1], user);
      if AcceptsStep(log[l - 1], user) {
        assert RisesAt(log, l - 1);
      }
    }
  }

  /** Between two rotations or removals of a user's factor, accepted counters strictly
      increase; in particular no time step is accepted twice. */
  lemma AcceptedStepsIncrease(c: Config, worlds: seq<World>, events: seq<Event>, n: nat, user: Id, k: nat, l: nat)
    requires IsRun(c, worlds, events) && n <= |events| && |worlds| == |events| + 1
    requires k < l < |worlds[n].db.log|
    requires AcceptsStep(worlds[n].db.log[k], user) && AcceptsStep(worlds[n].db.log[l], user)
    requires !Cleared(worlds[n].db.log, user, k, l)
    ensures worlds[n].db.log[k].counter < worlds[n].db.log[l].counter
  {
    hide Step, IsRun;
    RunOnce(c, worlds, events, n);
    AcceptedStays(worlds[n].db.log, user, k, l);
    assert RisesAt(worlds[n].db.log, l);
  }

  /** A code was accepted by the service: the reply of `/mfa/verify` says so, or that the
      session is now held, or that the mail about holding it could not be sent. */
  ghost predicate AcceptsCode(c: Config, s: State, e: Event, user: Id) {
    && e.request.Totp? && e.request.claims.Some? && e.request.claims.value.user == user && e.request.matched.Some?
    && (Step(c, s, e).1 == Accepted || Step(c, s, e).1.DevicePending? || Step(c, s, e).1 == Refused(503))
  }

  /** The user's factor was rotated or removed by this request. */
  ghost predicate ChangesFactor(c: Config, s: State, e: Event, user: Id) {
    && Step(c, s, e).1 == Accepted
    && match e.request
       case Claim(v, _) => v in s.activations && s.activations[v].user == user
       case FactorReset(_, u, _) => u == user
       case FounderRecovery(u, _) => u == user
       case _ => false
  }

  lemma AcceptedCodeIsLogged(c: Config, s: State, e: Event, user: Id)
    requires AcceptsCode(c, s, e, user)
    ensures var t := Step(c, s, e).0;
            |t.log| == |s.log| + 1 && AcceptsStep(t.log[|s.log|], user) && t.log[|s.log|].counter == e.request.matched.value
  {
    hide TrustLapsed, MayLogIn;
  }

  /** A log entry about the user's factor comes from a request that changed it. */
  lemma ClearingIsAChange(c: Config, s: State, e: Event, f: Fact, user: Id)
    requires Meaning(c, s, e, f) && ClearsFactor(f, user) && Step(c, s, e).0.log == s.log + [f]
    ensures ChangesFactor(c, s, e, user)
  {
    hide ActivationStillBound, MayLogIn, RevokeActive, CancelLive;
  }

  /** Two codes accepted for one user, with no rotation or removal of the factor between,
      are codes of different time steps, the later of a later step. */
  lemma AcceptedCodesIncrease(c: Config, worlds: seq<World>, events: seq<Event>, i: nat, j: nat, user: Id)
    requires IsRun(c, worlds, events) && i < j < |events| && |worlds| == |events| + 1
    requires AcceptsCode(c, worlds[i].db, events[i], user) && AcceptsCode(c, worlds[j].db, events[j], user)
    requires forall k :: i < k < j ==> !ChangesFactor(c, worlds[k].db, events[k], user)
    ensures events[i].request.matched.value < events[j].request.matched.value
  {
    hide Step, IsRun, Happened, ChangesFactor, Rising;
    AcceptedCodeIsLogged(c, worlds[i].db, events[i], user);
    AcceptedCodeIsLogged(c, worlds[j].db, events[j], user);
    hide AcceptsCode;
    RunStep(c, worlds, events, i);
    RunStep(c, worlds, events, j);
    LogExtends(c, worlds, events, i + 1, j + 1);
    var log, k, l := worlds[j + 1].db.log, |worlds[i].db.log|, |worlds[j].db.log|;
    LogExtends(c, worlds, events, i + 1, j);
    if Cleared(log, user, k, l) {
      var m :| k <= m < l && ClearsFactor(log[m], user);
      var at := EntryHappened(c, worlds, events, j + 1, m);
      AtBetween(c, worlds, events, i, j, at, m);
      ChangeAt(c, worlds, events, at, log[m], user);
    } else {
      AcceptedStepsIncrease(c, worlds, events, j + 1, user, k, l);
    }
  }

  lemma AtBetween(c: Config, worlds: seq<World>, events: seq<Event>, i: nat, j: nat, at: nat, m: nat)
    requires IsRun(c, worlds, events) && i < j < |events| && |worlds| == |events| + 1 && at <= j
    requires |worlds[i + 1].db.log| == |worlds[i].db.log| + 1
    requires |worlds[i].db.log| < m < |worlds[j].db.log|
    requires |worlds[at].db.log| <= m < |worlds[at + 1].db.log|
    ensures i < at < j
  {
    hide Step, IsRun;
    if at < i {
      LogExtends(c, worlds, events, at + 1, i);
    }
  }

  lemma ChangeAt(c: Config, worlds: seq<World>, events: seq<Event>, at: nat, f: Fact, user: Id)
    requires IsRun(c, worlds, events) && at < |events| && |worlds| == |events| + 1
    requires Happened(c, worlds, events, at, f) && ClearsFactor(f, user)
    ensures ChangesFactor(c, worlds[at].db, events[at], user)
  {
    hide Step, IsRun, ChangesFactor, Meaning;
    RunStep(c, worlds, events, at);
    ClearingIsAChange(c, worlds[at].db, events[at], f, user);
  }

  /** A session still asking for its factor has failed fewer than the maximum times. */
  lemma FailuresAreBounded(c: Config, worlds: seq<World>, events: seq<Event>, n: nat, session: Id)
    requires IsRun(c, worlds, events) && n <= |events| && |worlds| == |events| + 1
    requires session in worlds[n].db.sessions
    requires worlds[n].db.sessions[session].status == ACTIVE && worlds[n].db.sessions[session].aal == AAL1
    ensures worlds[n].db.sessions[session].failed < c.mfaMaxFailed
  {
    hide Step, IsRun;
    RunKeeps(c, worlds, events, n);
    assert SessionLegal(c, worlds[n].db.sessions[session]);
  }

  // ------------------------------------------------------------- QR sign-in

  /** Per session at most one open request and one consumed; a consumed request's
      session is aal2; approved and consumed requests name a device of their user. */
  lemma QrRequestsAreSafe(c: Config, worlds: seq<World>, events: seq<Event>, n: nat, q: Id)
    requires IsRun(c, worlds, events) && n <= |events| && |worlds| == |events| + 1
    requires q in worlds[n].db.qrs
    ensures var s := worlds[n].db;
            var row := s.qrs[q];
            && (row.status in {QrPending, QrScanned} ==>
                  forall r :: r in s.qrs && s.qrs[r].session == row.session && s.qrs[r].status in {QrPending, QrScanned} ==> r == q)
            && (row.status == QrConsumed ==>
                  && row.session in s.sessions && s.sessions[row.session].aal == AAL2
                  && forall r :: r in s.qrs && s.qrs[r].session == row.session && s.qrs[r].status == QrConsumed ==> r == q)
            && (row.status in {QrApproved, QrConsumed} ==>
                  row.scannedBy.Some? && row.scannedBy.value in s.approvals && s.approvals[row.scannedBy.value].user == row.user)
  {
    hide Step, IsRun;
    RunKeeps(c, worlds, events, n);
    var s := worlds[n].db;
    assert QrLinked(s.sessions, s.approvals, s.qrs[q]);
    forall r | r in s.qrs && s.qrs[r].session == s.qrs[q].session
      ensures s.qrs[q].status in {QrPending, QrScanned} && s.qrs[r].status in {QrPending, QrScanned} ==> r == q
      ensures s.qrs[q].status == QrConsumed && s.qrs[r].status == QrConsumed ==> r == q
    {
      assert QrOpen(s.qrs[q], s.qrs[q].session) == (s.qrs[q].status in {QrPending, QrScanned});
      assert QrOpen(s.qrs[r], s.qrs[q].session) == (s.qrs[r].status in {QrPending, QrScanned});
      assert QrSpent(s.qrs[q], s.qrs[q].session) == (s.qrs[q].status == QrConsumed);
      assert QrSpent(s.qrs[r], s.qrs[q].session) == (s.qrs[r].status == QrConsumed);
    }
  }

  /** A session rejected on the phone while it was ACTIVE at aal1 never reaches aal2. */
  lemma RejectedNeverReachesAal2(c: Config, worlds: seq<World>, events: seq<Event>, i: nat, j: nat)
    requires IsRun(c, worlds, events) && i < j <= |events| && |worlds| == |events| + 1
    requires events[i].request.QrDecide? && !events[i].request.approve
    requires Step(c, worlds[i].db, events[i]).1 == Accepted
    requires events[i].request.qr in worlds[i].db.qrs
    requires AwaitingFactor(worlds[i].db, worlds[i].db.qrs[events[i].request.qr].session)
    ensures var session := worlds[i].db.qrs[events[i].request.qr].session;
            && session in worlds[j].db.sessions
            && worlds[j].db.sessions[session].status == REVOKED && worlds[j].db.sessions[session].aal == AAL1
  {
    hide Step, IsRun;
    RejectionRevokes(c, worlds[i].db, events[i]);
    RunStep(c, worlds, events, i);
    RunEvolves(c, worlds, events, i + 1, j);
    var session := worlds[i].db.qrs[events[i].request.qr].session;
    assert SessionEvolves(worlds[i + 1].db.sessions[session], worlds[j].db.sessions[session]);
  }

  lemma RejectionRevokes(c: Config, s: State, e: Event)
    requires e.request.QrDecide? && !e.request.approve && Step(c, s, e).1 == Accepted
    requires e.request.qr in s.qrs && AwaitingFactor(s, s.qrs[e.request.qr].session)
    ensures var session := s.qrs[e.request.qr].session;
            && session in Step(c, s, e).0.sessions
            && Step(c, s, e).0.sessions[session] == Revoked(s.sessions[session])
  {
    hide Authenticate, TrustLapsed;
  }

  // ---------------------------------------------------------- refresh tokens

  /** A refresh token is accepted by `/refresh` at most once in any run. */
  lemma RefreshTokenWorksOnce(c: Config, worlds: seq<World>, events: seq<Event>, i: nat, j: nat, token: Token)
    requires IsRun(c, worlds, events) && i < j < |events| && |worlds| == |events| + 1
    requires events[i].request == RefreshWith(token) && events[j].request == RefreshWith(token)
    requires Step(c, worlds[i].db, events[i]).1.Issued?
    ensures Step(c, worlds[j].db, events[j]).1 == Refused(401)
  {
    hide Step, IsRun, Once;
    RefreshWrites(c, worlds[i].db, events[i]);
    RunStep(c, worlds, events, i);
    LogExtends(c, worlds, events, i + 1, j);
    RunOnce(c, worlds, events, j);
    var k := |worlds[i].db.log|;
    assert worlds[j].db.log[k].RefreshAccepted? && worlds[j].db.log[k].token == token;
    SpentTokenIsRefused(c, worlds[j], events[j], k);
  }

  lemma RefreshWrites(c: Config, s: State, e: Event)
    requires e.request.RefreshWith? && Step(c, s, e).1.Issued?
    ensures var t := Step(c, s, e).0;
            |t.log| == |s.log| + 1 && t.log[|s.log|].RefreshAccepted? && t.log[|s.log|].token == e.request.proof
  {
  }

  lemma SpentTokenIsRefused(c: Config, w: World, e: Event, k: nat)
    requires Once(w) && k < |w.db.log| && w.db.log[k].RefreshAccepted?
    requires e.request == RefreshWith(w.db.log[k].token)
    ensures Step(c, w.db, e).1 == Refused(401)
  {
    hide CountersMatch, Rising, RotationsMatch, RefreshRow;
    assert Gone(w.db, w.minted, e.request.proof);
    assert !exists id :: HoldsRefresh(w.db, e.request.proof, id);
  }
}
