/** The row view of QR codes and of phone activations. */
module IdentityViewCodes {
  import opened IdentityModel
  import opened IdentityInvariants
  import opened IdentityProtocol
  import opened IdentityView
  import opened IdentityViewAccounts

  // --------------------------------------------------------------- QR codes

  lemma ScannerExactly(s: State, x: Ctx, claims: Option<Claims>, d: DeviceClaim)
    ensures ScannerRefusal(s, x, claims, d).None? <==> IsScanner(s, x, claims, d)
  {
    AdmitsExactly(s, x, claims, true, {AUTHENTICATOR_ACTIVATION});
    hide Authenticate;
  }

  predicate IsOnCode(r: Request) { r.QrStatusOf? || r.QrCancel? || r.QrScan? || r.QrDecide? || r.QrComplete? }

  /** A request about one code moves that code alone. */
  predicate OneCode(s: State, e: Event, t: State)
    requires IsOnCode(e.request)
  {
    t.qrs == if e.request.qr in s.qrs then s.qrs[e.request.qr := QrAfter(s, e, e.request.qr)] else s.qrs
  }

  lemma CodesSay(c: Config, s: State, e: Event, t: State)
    requires IsOnCode(e.request) && OneCode(s, e, t)
    ensures QrsSay(c, s, e, t)
  {
    forall q | q in s.qrs && q != e.request.qr ensures QrAfter(s, e, q) == s.qrs[q] { OtherCode(s, e, q); }
    hide QrAfter;
  }

  lemma OtherCode(s: State, e: Event, q: Id)
    requires IsOnCode(e.request) && q in s.qrs && q != e.request.qr
    ensures QrAfter(s, e, q) == s.qrs[q]
  {
    hide IsScanner, IsOfficeCode;
  }

  lemma BrowserRows(s: State, e: Event, t: State, reply: Reply)
    requires (e.request.QrStatusOf? && (t, reply) == ReadQr(s, e.ctx, e.request.qr, e.request.proof))
          || (e.request.QrCancel? && (t, reply) == CancelQr(s, e.request.qr, e.request.proof))
    ensures t == s.(qrs := t.qrs) && (!reply.Refused? <==> Handles(s, e, e.request.qr))
    ensures OneCode(s, e, t)
  {
    hide IsScanner, IsOfficeCode;
  }

  lemma ScanRows(s: State, e: Event, t: State, reply: Reply)
    requires e.request.QrScan? && (t, reply) == ScanQr(s, e.ctx, e.request.claims, e.request.device, e.request.qr, e.request.proof)
    ensures t == s.(qrs := t.qrs, log := t.log) && t.qrs.Keys == s.qrs.Keys
    ensures !reply.Refused? <==> ScansOwn(s, e, e.request.qr) && IsOfficeCode(s, e.request.qr) && s.qrs[e.request.qr].status == QrPending
    ensures OneCode(s, e, t)
  {
    ScannerExactly(s, e.ctx, e.request.claims, e.request.device);
    hide ScannerRefusal, IsPhone, IsKnown;
    var q := e.request.qr;
    if q in s.qrs && Handles(s, e, q) && !IsStale(s, q, e.ctx.now) {
      assert ScansOwn(s, e, q) <==> s.qrs[q].user == e.request.claims.value.user;
    }
  }

  /** What the decision on a code, or its completion, does to a session. */
  function CodeSession(s: State, e: Event, id: Id): Session
    requires id in s.sessions && (e.request.QrDecide? || e.request.QrComplete?)
  {
    var q, row := e.request.qr, s.sessions[id];
    if q !in s.qrs || s.qrs[q].session != id then row
    else if CompletesCode(s, e, q) then row.(aal := AAL2)
    else if (DecidesCode(s, e, q, false) && IsWaiting(s, q)) || (ComesFor(s, e, q) && IsOfficeCode(s, q) && s.qrs[q].user in s.users)
    then Revoked(row) else row
  }

  lemma CodeMovesSession(c: Config, s: State, e: Event, id: Id)
    requires id in s.sessions && (e.request.QrDecide? || e.request.QrComplete?)
    ensures SessionAfter(c, s, e, id) == CodeSession(s, e, id)
  {
    hide IsScanner, IsCaller, IsTrusted, IsWaiting, IsStale;
    forall q | q in s.qrs && q != e.request.qr ensures !DecidesCode(s, e, q, false) && !ComesFor(s, e, q) {}
  }

  lemma CodeSessionsSay(c: Config, s: State, e: Event, t: State)
    requires (e.request.QrDecide? || e.request.QrComplete?) && t.sessions.Keys == s.sessions.Keys
    requires forall id :: id in s.sessions ==> t.sessions[id] == CodeSession(s, e, id)
    ensures SessionsSay(c, s, e, t)
  {
    hide SessionAfter, CodeSession;
    forall id | id in s.sessions ensures t.sessions[id] == SessionAfter(c, s, e, id) { CodeMovesSession(c, s, e, id); }
  }

  /** The ways a decision ends. */
  lemma DecideCases(s: State, e: Event, t: State, reply: Reply)
    requires e.request.QrDecide? && (t, reply) == DecideQr(s, e.ctx, e.request.claims, e.request.device, e.request.qr, e.request.approve)
    ensures var q := e.request.qr;
            if Handles(s, e, q) && IsStale(s, q, e.ctx.now) then reply.Refused? && t == SetQr(s, q, QrExpired)
            else if DecidesCode(s, e, q, true) then
              !reply.Refused? && t == SetQr(s, q, QrApproved).(log := t.log)
            else if DecidesCode(s, e, q, false) then
              && !reply.Refused?
              && t == (if IsWaiting(s, q)
                       then WithSession(SetQr(s, q, QrRejected), s.qrs[q].session, Revoked(s.sessions[s.qrs[q].session]))
                       else SetQr(s, q, QrRejected))
            else reply.Refused? && t == s
  {
    ScannerExactly(s, e.ctx, e.request.claims, e.request.device);
    KnownIsDevice(s, e.ctx, e.request.claims, e.request.device);
    hide ScannerRefusal, IsScanner;
  }

  lemma DecideRows(s: State, e: Event, t: State, reply: Reply)
    requires e.request.QrDecide? && (t, reply) == DecideQr(s, e.ctx, e.request.claims, e.request.device, e.request.qr, e.request.approve)
    ensures t == s.(sessions := t.sessions, qrs := t.qrs, log := t.log) && t.qrs.Keys == s.qrs.Keys
    ensures !reply.Refused? <==> DecidesCode(s, e, e.request.qr, e.request.approve)
    ensures OneCode(s, e, t)
  {
    DecideCases(s, e, t, reply);
    hide DecideQr, IsScanner, IsOfficeCode, IsWaiting, QrAfter;
    if e.request.qr in s.qrs { CodeComes(s, e); }
    NotComing(s, e);
    hide DecidesCode, CompletesCode, ComesFor, IsStale;
  }

  lemma NotComing(s: State, e: Event)
    requires e.request.QrDecide?
    ensures forall q :: !ComesFor(s, e, q) && !CompletesCode(s, e, q)
    ensures forall q, approve :: DecidesCode(s, e, q, approve) ==> q in s.qrs && approve == e.request.approve
  {
  }

  lemma DecideSessions(s: State, e: Event, t: State, reply: Reply)
    requires e.request.QrDecide? && (t, reply) == DecideQr(s, e.ctx, e.request.claims, e.request.device, e.request.qr, e.request.approve)
    ensures t.sessions.Keys == s.sessions.Keys && forall id :: id in s.sessions ==> t.sessions[id] == CodeSession(s, e, id)
  {
    DecideCases(s, e, t, reply);
    NotComing(s, e);
    hide DecideQr, DecidesCode, CompletesCode, ComesFor, IsOfficeCode, Handles, IsStale;
  }

  lemma KnownIsDevice(s: State, x: Ctx, claims: Option<Claims>, d: DeviceClaim)
    ensures IsScanner(s, x, claims, d) ==> claims.Some? && d.Device?
  {
  }

  predicate IsCompleteAgain(s: State, e: Event, q: Id) {
    && Handles(s, e, q) && s.qrs[q].status == QrConsumed && s.qrs[q].user in s.users && s.qrs[q].session in s.sessions
    && s.sessions[s.qrs[q].session].status == ACTIVE && s.sessions[s.qrs[q].session].aal == AAL2
  }

  /** The ways a completion ends. */
  lemma ComeCases(s: State, e: Event, t: State, reply: Reply)
    requires e.request.QrComplete? && (t, reply) == CompleteQr(s, e.ctx, e.request.qr, e.request.proof)
    ensures var q := e.request.qr;
            if Handles(s, e, q) && IsStale(s, q, e.ctx.now) then reply.Refused? && t == SetQr(s, q, QrExpired)
            else if CompletesCode(s, e, q) then
              && !reply.Refused?
              && t == WithSession(SetQr(s, q, QrConsumed), s.qrs[q].session, s.sessions[s.qrs[q].session].(aal := AAL2)).(log := t.log)
            else if ComesFor(s, e, q) then
              && reply.Refused?
              && t == (if IsOfficeCode(s, q) && s.qrs[q].user in s.users
                       then WithSession(SetQr(s, q, QrRevoked), s.qrs[q].session, Revoked(s.sessions[s.qrs[q].session]))
                       else SetQr(s, q, QrRevoked))
            else t == s && (!reply.Refused? <==> IsCompleteAgain(s, e, q))
  {
    hide IsScanner;
  }

  lemma ComeRows(s: State, e: Event, t: State, reply: Reply)
    requires e.request.QrComplete? && (t, reply) == CompleteQr(s, e.ctx, e.request.qr, e.request.proof)
    ensures t == s.(sessions := t.sessions, qrs := t.qrs, log := t.log)
    ensures OneCode(s, e, t)
  {
    hide CompleteQr, IsScanner, IsOfficeCode, IsCompleteAgain, QrAfter;
    hide CompletesCode, ComesFor, IsStale, DecidesCode, Handles;
    ComeCases(s, e, t, reply);
    if e.request.qr in s.qrs { CodeComes(s, e); }
    NotDeciding(s, e);
  }

  lemma NotDeciding(s: State, e: Event)
    requires e.request.QrComplete?
    ensures forall q, approve :: !DecidesCode(s, e, q, approve)
    ensures forall q :: CompletesCode(s, e, q) ==> ComesFor(s, e, q) && s.qrs[q].session in s.sessions
    ensures forall q :: ComesFor(s, e, q) || Handles(s, e, q) ==> q in s.qrs
  {
  }

  /** Where a code goes that is decided or come for. */
  lemma CodeComes(s: State, e: Event)
    requires (e.request.QrComplete? || e.request.QrDecide?) && e.request.qr in s.qrs
    ensures var q, row := e.request.qr, s.qrs[e.request.qr];
            QrAfter(s, e, q) == row.(status := if Handles(s, e, q) && IsStale(s, q, e.ctx.now) then QrExpired
                                               else if DecidesCode(s, e, q, true) then QrApproved
                                               else if DecidesCode(s, e, q, false) then QrRejected
                                               else if CompletesCode(s, e, q) then QrConsumed
                                               else if ComesFor(s, e, q) then QrRevoked
                                               else row.status)
  {
    hide IsScanner, IsOfficeCode;
  }

  lemma ComeSessions(s: State, e: Event, t: State, reply: Reply)
    requires e.request.QrComplete? && (t, reply) == CompleteQr(s, e.ctx, e.request.qr, e.request.proof)
    ensures t.sessions.Keys == s.sessions.Keys && forall id :: id in s.sessions ==> t.sessions[id] == CodeSession(s, e, id)
    ensures !reply.Refused? <==> CompletesCode(s, e, e.request.qr) || IsCompleteAgain(s, e, e.request.qr)
  {
    ComeCases(s, e, t, reply);
    NotDeciding(s, e);
    hide CompleteQr, DecidesCode, CompletesCode, ComesFor, Handles, IsStale;
  }

  lemma StartRows(c: Config, w: World, e: Event, t: State, reply: Reply)
    requires FreshMint(w, e.mint) && e.request.StartQr?
    requires (t, reply) == CreateQr(c, w.db, e.ctx, e.request.claims, e.mint.id, e.mint.first, e.mint.second)
    ensures t == w.db.(qrs := t.qrs) && (!reply.Refused? <==> ShowsCode(w.db, e)) && QrsSay(c, w.db, e, t)
  {
    AdmitsExactly(w.db, e.ctx, e.request.claims, false, {OFFICE});
    hide Authenticate, IsScanner, IsOfficeCode;
  }

  lemma ScanSays(c: Config, s: State, e: Event, t: State, reply: Reply)
    requires e.request.QrScan? && (t, reply) == ScanQr(s, e.ctx, e.request.claims, e.request.device, e.request.qr, e.request.proof)
    ensures Says(c, s, e, t, reply)
  {
    hide SessionsSay, ApprovalsSay, QrsSay, ActivationsSay, UsersSay, ScanQr, QrAfter, ScansOwn, IsOfficeCode;
    ScanRows(s, e, t, reply);
    CodesSay(c, s, e, t);
    RestSays(c, s, e, t);
    SessionsSame(c, s, e, t);
  }

  lemma BrowserSays(c: Config, s: State, e: Event, t: State, reply: Reply)
    requires (e.request.QrStatusOf? && (t, reply) == ReadQr(s, e.ctx, e.request.qr, e.request.proof))
          || (e.request.QrCancel? && (t, reply) == CancelQr(s, e.request.qr, e.request.proof))
    ensures Says(c, s, e, t, reply)
  {
    hide SessionsSay, ApprovalsSay, QrsSay, ActivationsSay, UsersSay, ReadQr, CancelQr, QrAfter, Handles;
    BrowserRows(s, e, t, reply);
    CodesSay(c, s, e, t);
    RestSays(c, s, e, t);
    SessionsSame(c, s, e, t);
  }

  lemma DecideSays(c: Config, s: State, e: Event, t: State, reply: Reply)
    requires e.request.QrDecide? && (t, reply) == DecideQr(s, e.ctx, e.request.claims, e.request.device, e.request.qr, e.request.approve)
    ensures Says(c, s, e, t, reply)
  {
    hide SessionsSay, ApprovalsSay, QrsSay, ActivationsSay, UsersSay, DecideQr, QrAfter, DecidesCode, CodeSession;
    DecideRows(s, e, t, reply);
    DecideSessions(s, e, t, reply);
    CodesSay(c, s, e, t);
    CodeSessionsSay(c, s, e, t);
    RestSays(c, s, e, t);
  }

  lemma ComeSays(c: Config, s: State, e: Event, t: State, reply: Reply)
    requires e.request.QrComplete? && (t, reply) == CompleteQr(s, e.ctx, e.request.qr, e.request.proof)
    ensures Says(c, s, e, t, reply)
  {
    hide SessionsSay, ApprovalsSay, QrsSay, ActivationsSay, UsersSay;
    hide CompleteQr, QrAfter, CompletesCode, CodeSession, Handles;
    ComeRows(s, e, t, reply);
    ComeSessions(s, e, t, reply);
    CodesSay(c, s, e, t);
    CodeSessionsSay(c, s, e, t);
    RestSays(c, s, e, t);
  }

  lemma StartSays(c: Config, w: World, e: Event, t: State, reply: Reply)
    requires FreshMint(w, e.mint) && e.request.StartQr?
    requires (t, reply) == CreateQr(c, w.db, e.ctx, e.request.claims, e.mint.id, e.mint.first, e.mint.second)
    ensures Says(c, w.db, e, t, reply)
  {
    hide SessionsSay, ApprovalsSay, QrsSay, ActivationsSay, UsersSay, CreateQr, ShowsCode;
    StartRows(c, w, e, t, reply);
    RestSays(c, w.db, e, t);
    SessionsSame(c, w.db, e, t);
  }

  /** What no request about codes touches. */
  lemma RestSays(c: Config, s: State, e: Event, t: State)
    requires OnQrs(e.request) && t.approvals == s.approvals && t.activations == s.activations && t.users == s.users
    ensures ApprovalsSay(c, s, e, t) && ActivationsSay(c, s, e, t) && UsersSay(s, e, t)
  {
    hide SessionsSay, ApprovalsSay, QrsSay, ActivationsSay, UsersSay;
    ApprovalsSame(c, s, e, t);
    ActivationsSame(c, s, e, t);
    UsersSame(s, e, t);
  }

  // ------------------------------------------------------------- activations

  lemma OneAsks(c: Config, s: State, e: Event, d: Id, f: Id)
    requires OneTrusted(s.approvals) && Asks(s, e, d) && Asks(s, e, f)
    ensures d == f
  {
  }

  lemma AskRows(c: Config, w: World, e: Event, t: State, reply: Reply)
    requires FreshMint(w, e.mint) && OneTrusted(w.db.approvals) && e.request.AskActivation?
    requires (t, reply) == RequestActivation(c, w.db, e.ctx, e.request.claims, e.mint.id, e.mint.first)
    ensures t == w.db.(activations := t.activations) && (!reply.Refused? <==> exists d :: Asks(w.db, e, d))
    ensures (forall d :: !Asks(w.db, e, d)) ==> t == w.db
    ensures forall d :: Asks(w.db, e, d) ==>
              t.activations == CancelLive(w.db.activations, e.request.claims.value.user, None, None)[e.mint.id :=
                Activation(e.request.claims.value.user, e.request.claims.value.session, d, Sha256(e.mint.first), Live,
                           e.ctx.now + c.activationTtl)]
  {
    var s := w.db;
    AdmitsExactly(s, e.ctx, e.request.claims, true, {AUTHENTICATOR_ACTIVATION});
    hide Authenticate, CancelLive;
    if IsPhone(s, e.ctx, e.request.claims) {
      var sid, user := e.request.claims.value.session, e.request.claims.value.user;
      forall d, f | OwnTrustedDevice(s, sid, user, d) && OwnTrustedDevice(s, sid, user, f) ensures d == f {}
      forall d ensures Asks(s, e, d) <==> OwnTrustedDevice(s, sid, user, d) && !TrustLapsed(s.approvals[d], e.ctx.now) {}
    }
  }

  lemma AskedActivations(c: Config, w: World, e: Event, t: State)
    requires FreshMint(w, e.mint) && e.request.AskActivation?
    requires forall d, f :: Asks(w.db, e, d) && Asks(w.db, e, f) ==> d == f
    requires (forall d :: !Asks(w.db, e, d)) ==> t.activations == w.db.activations
    requires forall d :: Asks(w.db, e, d) ==>
               t.activations == CancelLive(w.db.activations, e.request.claims.value.user, None, None)[e.mint.id :=
                 Activation(e.request.claims.value.user, e.request.claims.value.session, d, Sha256(e.mint.first), Live,
                            e.ctx.now + c.activationTtl)]
    ensures ActivationsSay(c, w.db, e, t)
  {
    var s := w.db;
    forall v | v in s.activations
      ensures ActivationAfter(s, e, v)
           == if s.activations[v].status == Live && (exists d :: Asks(s, e, d)) && e.request.claims.Some? && e.request.claims.value.user == s.activations[v].user
              then s.activations[v].(status := Cancelled) else s.activations[v]
    {
      AskedActivation(s, e, v);
    }
    hide ActivationAfter, Asks;
  }

  lemma AskedActivation(s: State, e: Event, v: Id)
    requires v in s.activations && e.request.AskActivation?
    ensures ActivationAfter(s, e, v)
         == if s.activations[v].status == Live && (exists d :: Asks(s, e, d)) && e.request.claims.Some? && e.request.claims.value.user == s.activations[v].user
            then s.activations[v].(status := Cancelled) else s.activations[v]
  {
    hide IsTrusted;
  }

  lemma AskSays(c: Config, w: World, e: Event, t: State, reply: Reply)
    requires FreshMint(w, e.mint) && OneTrusted(w.db.approvals) && e.request.AskActivation?
    requires (t, reply) == RequestActivation(c, w.db, e.ctx, e.request.claims, e.mint.id, e.mint.first)
    ensures Says(c, w.db, e, t, reply)
  {
    hide SessionsSay, ApprovalsSay, QrsSay, ActivationsSay, UsersSay, RequestActivation, CancelLive, Asks, OneTrusted;
    AskRows(c, w, e, t, reply);
    forall d, f | Asks(w.db, e, d) && Asks(w.db, e, f) ensures d == f { OneAsks(c, w.db, e, d, f); }
    AskedActivations(c, w, e, t);
    if d :| Asks(w.db, e, d) {
      assert t == w.db.(activations := t.activations);
    }
    ApprovalsSame(c, w.db, e, t);
    QrsSame(c, w.db, e, t);
    UsersSame(w.db, e, t);
    SessionsSame(c, w.db, e, t);
  }

  // The claim.

  lemma StandsExactly(s: State, row: Activation, now: Time)
    ensures ActivationStillBound(s, row, now) <==> StillStands(s, row, now)
  {
  }

  /** The ways a claim ends. */
  lemma ClaimCases(s: State, e: Event, t: State, reply: Reply)
    requires e.request.Claim? && (t, reply) == ClaimActivation(s, e.ctx, e.request.activation, e.request.proof)
    ensures var v := e.request.activation;
            if TakesUp(s, e, v) then
              && !reply.Refused? && s.activations[v].user in s.users
              && t == WithUser(WithActivation(s, v, s.activations[v].(status := Claimed)), s.activations[v].user, User(true, None)).(log := t.log)
            else if Takes(s, e, v) then
              && reply.Refused?
              && t == WithActivation(s, v, s.activations[v].(status := if s.activations[v].expiresAt <= e.ctx.now
                                                                        then ActivationExpired else Cancelled))
            else reply.Refused? && t == s
  {
    if e.request.activation in s.activations {
      StandsExactly(s, s.activations[e.request.activation], e.ctx.now);
    }
    hide ActivationStillBound, StillStands, IsPhone, IsCaller, IsTrusted;
  }

  lemma ClaimedRow(s: State, e: Event)
    requires e.request.Claim? && e.request.activation in s.activations
    ensures var v, row := e.request.activation, s.activations[e.request.activation];
            ActivationAfter(s, e, v) == row.(status := if TakesUp(s, e, v) then Claimed
                                                       else if Takes(s, e, v) then
                                                         (if row.expiresAt <= e.ctx.now then ActivationExpired else Cancelled)
                                                       else row.status)
  {
    hide StillStands, IsPhone, IsCaller, IsTrusted;
  }

  lemma ClaimRows(s: State, e: Event, t: State, reply: Reply)
    requires e.request.Claim? && (t, reply) == ClaimActivation(s, e.ctx, e.request.activation, e.request.proof)
    ensures t == s.(activations := t.activations, users := t.users, log := t.log) && t.activations.Keys == s.activations.Keys
    ensures t.users.Keys == s.users.Keys
    ensures !reply.Refused? <==> TakesUp(s, e, e.request.activation)
    ensures forall v :: v in s.activations ==>
              t.activations[v] == if v == e.request.activation then ActivationAfter(s, e, v) else s.activations[v]
    ensures forall u :: u in s.users ==>
              t.users[u] == if TakesUp(s, e, e.request.activation) && s.activations[e.request.activation].user == u then User(true, None)
                            else s.users[u]
  {
    ClaimCases(s, e, t, reply);
    if e.request.activation in s.activations { ClaimedRow(s, e); }
    hide ClaimActivation, ActivationAfter, StillStands;
  }

  lemma ClaimSays(c: Config, s: State, e: Event, t: State, reply: Reply)
    requires e.request.Claim? && (t, reply) == ClaimActivation(s, e.ctx, e.request.activation, e.request.proof)
    ensures Says(c, s, e, t, reply)
  {
    hide SessionsSay, ApprovalsSay, QrsSay, ActivationsSay, UsersSay, ClaimActivation, TakesUp;
    ClaimRows(s, e, t, reply);
    ClaimedActivations(c, s, e, t);
    ClaimedUsers(s, e, t);
    ApprovalsSame(c, s, e, t);
    QrsSame(c, s, e, t);
    SessionsSame(c, s, e, t);
  }

  lemma ClaimedActivations(c: Config, s: State, e: Event, t: State)
    requires e.request.Claim? && t.activations.Keys == s.activations.Keys
    requires forall v :: v in s.activations ==>
               t.activations[v] == if v == e.request.activation then ActivationAfter(s, e, v) else s.activations[v]
    ensures ActivationsSay(c, s, e, t)
  {
    NobodyAsks(s, e);
    hide ActivationAfter, Asks;
    forall v | v in s.activations && v != e.request.activation ensures ActivationAfter(s, e, v) == s.activations[v] {
      OtherClaim(s, e, v);
    }
  }

  lemma ClaimedUsers(s: State, e: Event, t: State)
    requires e.request.Claim? && t.users.Keys == s.users.Keys
    requires forall u :: u in s.users ==>
               t.users[u] == if TakesUp(s, e, e.request.activation) && s.activations[e.request.activation].user == u then User(true, None)
                             else s.users[u]
    ensures UsersSay(s, e, t)
  {
    hide UserAfter, TakesUp;
    forall u | u in s.users ensures t.users[u] == UserAfter(s, e, u) { ClaimedUser(s, e, u); }
  }

  lemma NobodyAsks(s: State, e: Event)
    requires !e.request.AskActivation?
    ensures forall d :: !Asks(s, e, d)
  {
  }

  lemma OtherClaim(s: State, e: Event, v: Id)
    requires e.request.Claim? && v in s.activations && v != e.request.activation
    ensures ActivationAfter(s, e, v) == s.activations[v]
  {
    hide IsPhone, IsCaller, IsTrusted, StillStands;
  }

  lemma ClaimedUser(s: State, e: Event, u: Id)
    requires e.request.Claim? && u in s.users
    ensures UserAfter(s, e, u)
         == if TakesUp(s, e, e.request.activation) && s.activations[e.request.activation].user == u then User(true, None) else s.users[u]
  {
    hide StillStands;
  }
}
